/** The events and sessions that the agent runtime hands to the launcher. */
module Adk {
  import opened Values

  /** Arguments and responses are `map[string]any`; None is a nil map. */
  datatype FunctionCall = FunctionCall(id: string, name: string, args: Option<Fields>)

  datatype FunctionResponse = FunctionResponse(id: string, name: string, response: Option<Fields>)

  datatype Part =
    | NilPart
    | Part(text: string, thought: bool, call: Option<FunctionCall>, response: Option<FunctionResponse>)

  datatype Content = Content(role: string, parts: seq<Part>)

  /** A session event. `delta` lists the entries of the state-delta map in the order
      in which this run ranges over it. */
  datatype Event = Event(
    id: string,
    author: string,
    partial: bool,
    content: Option<Content>,
    delta: seq<(string, Value)>,
    turnComplete: bool,
    errorMessage: string,
    errorCode: string,
    timestamp: int)

  /** One step of the runner's iterator: an error, a nil event or an event. */
  datatype Item = Failure(message: string) | NilEvent | Yielded(event: Event)

  /** A stored session: its state and its event history (None is a nil event). */
  datatype Session = Session(state: Fields, history: seq<Option<Event>>)

  /** An item together with the stored session at the moment the launcher receives it. */
  datatype Arrival = Arrival(item: Item, session: Session)

  /** One agent run, as the launcher can observe it: a start error or the items it
      would yield, and the stored session once all items are drained. */
  datatype Agent = Agent(startError: Option<string>, arrivals: seq<Arrival>, final: Session)

  function PartsOf(ev: Event): seq<Part> {
    if ev.content.None? then [] else ev.content.value.parts
  }

  predicate IsThought(part: Part) {
    part.Part? && part.thought && part.text != ""
  }

  predicate IsText(part: Part) {
    part.Part? && !part.thought && part.text != ""
  }

  /** A part that reaches the function-call branch: text and thought parts are handled earlier. */
  predicate IsCall(part: Part) {
    part.Part? && part.text == "" && part.call.Some?
  }

  predicate IsResponse(part: Part) {
    part.Part? && part.text == "" && part.call.None? && part.response.Some?
  }
}
