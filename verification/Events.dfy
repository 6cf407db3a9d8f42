/**
 * The canonical event stream: the online validator against the contract it enforces, stated over
 * whole streams without any validator state.
 */
module Events {
  import opened Wrappers

  datatype ContentKind = Text | Reasoning | ToolCall | Image | Audio

  /** `Delta` covers the text, reasoning and tool-call deltas, `Accounting` the usage and cost events. */
  datatype Event =
    | Started
    | ContentAdded(index: nat, kind: ContentKind)
    | Delta(target: nat, expects: ContentKind)
    | Accounting
    | Completed

  datatype SequenceError =
    | MissingStarted
    | DuplicateStarted
    | DuplicateContent(index: nat)
    | InvalidDeltaTarget(index: nat)
    | EventAfterCompleted
    | MissingCompleted

  datatype State = State(started: bool, completed: bool, content: map<nat, ContentKind>)

  const FRESH := State(false, false, map[])

  function Rejection(s: State, e: Event): Option<SequenceError> {
    if s.completed then Some(EventAfterCompleted)
    else if !s.started && !e.Started? then Some(MissingStarted)
    else match e
      case Started => if s.started then Some(DuplicateStarted) else None
      case ContentAdded(index, _) => if index in s.content then Some(DuplicateContent(index)) else None
      case Delta(target, expects) =>
        if target in s.content && s.content[target] == expects then None else Some(InvalidDeltaTarget(target))
      case _ => None
  }

  /** The state after `observe`; a duplicate content index overwrites the stored kind all the same. */
  function After(s: State, e: Event): State {
    if s.completed || (!s.started && !e.Started?) then s
    else match e
      case Started => s.(started := true)
      case ContentAdded(index, kind) => s.(content := s.content[index := kind])
      case Completed => s.(completed := true)
      case _ => s
  }

  function FinishError(s: State): Option<SequenceError> {
    if !s.started then Some(MissingStarted) else if !s.completed then Some(MissingCompleted) else None
  }

  class EventSequenceValidator {
    var started: bool
    var completed: bool
    var content: map<nat, ContentKind>

    function Contents(): State
      reads this
    {
      State(started, completed, content)
    }

    constructor ()
      ensures Contents() == FRESH
    {
      started, completed, content := false, false, map[];
    }

    method Observe(event: Event) returns (r: Result<(), SequenceError>)
      modifies this
      ensures Contents() == After(old(Contents()), event)
      ensures match Rejection(old(Contents()), event) case None => r == Ok(()) case Some(error) => r == Err(error)
    {
      if completed { return Err(EventAfterCompleted); }
      if !started && !event.Started? { return Err(MissingStarted); }
      match event {
        case Started =>
          if started { return Err(DuplicateStarted); }
          started := true;
        case ContentAdded(index, kind) =>
          var known := index in content;
          content := content[index := kind];
          if known { return Err(DuplicateContent(index)); }
        case Delta(target, expects) =>
          if target !in content || content[target] != expects { return Err(InvalidDeltaTarget(target)); }
        case Accounting =>
        case Completed =>
          completed := true;
      }
      return Ok(());
    }

    method Finish() returns (r: Result<(), SequenceError>)
      ensures match FinishError(Contents()) case None => r == Ok(()) case Some(error) => r == Err(error)
    {
      if !started { return Err(MissingStarted); }
      if !completed { return Err(MissingCompleted); }
      return Ok(());
    }
  }

  /**
   * Which error the event after an accepted stream is refused with, in terms of that stream alone.
   */
  ghost predicate Refused(events: seq<Event>, e: Event, error: SequenceError) {
    var completed := exists i :: 0 <= i < |events| && events[i].Completed?;
    match error
    case EventAfterCompleted => completed
    case MissingStarted => events == [] && !e.Started?
    case DuplicateStarted => !completed && events != [] && e.Started?
    case DuplicateContent(index) =>
      && !completed && e.ContentAdded? && e.index == index
      && exists i :: 0 <= i < |events| && events[i].ContentAdded? && events[i].index == index
    case InvalidDeltaTarget(index) =>
      && !completed && events != [] && e.Delta? && e.target == index
      && forall i | 0 <= i < |events| :: !Adds(events[i], index, e.expects)
    case MissingCompleted => false
  }

  lemma RejectionNamed(events: seq<Event>, e: Event, error: SequenceError)
    requires Accepts(events).Some?
    ensures Rejection(Accepts(events).value, e) == Some(error) <==> Refused(events, e, error)
  {
    AcceptsIffInOrder(events);
    var s := Accepts(events).value;
    if e.ContentAdded? && e.index in s.content {
      var i :| 0 <= i < |events| && Adds(events[i], e.index, s.content[e.index]);
      assert events[i].ContentAdded? && events[i].index == e.index;
    }
    if e.Delta? && e.target in s.content {
      var i :| 0 <= i < |events| && Adds(events[i], e.target, s.content[e.target]);
      forall j | 0 <= j < |events| && Adds(events[j], e.target, e.expects) ensures s.content[e.target] == e.expects {
        assert events[j].ContentAdded?;
      }
    }
  }

  /** And with which error an accepted stream may not end: before it has started, or before it has completed. */
  lemma FinishErrorNamed(events: seq<Event>)
    requires Accepts(events).Some?
    ensures FinishError(Accepts(events).value) == Some(MissingStarted) <==> events == []
    ensures FinishError(Accepts(events).value) == Some(MissingCompleted) <==>
            events != [] && !events[|events| - 1].Completed?
    ensures FinishError(Accepts(events).value) == None <==> events != [] && events[|events| - 1].Completed?
  {
    AcceptsIffInOrder(events);
    if events != [] && Accepts(events).value.completed { assert InOrder(events, |events| - 1); }
  }

  /** A rejected event changes the state exactly when it gives a known content index another kind. */
  lemma RejectionEffect(s: State, e: Event)
    requires Rejection(s, e).Some?
    ensures After(s, e) != s <==>
            s.started && !s.completed && e.ContentAdded? && e.index in s.content && s.content[e.index] != e.kind
  {
  }

  /** The state after a stream all of whose events are accepted, None as soon as one is not. */
  function Accepts(events: seq<Event>): Option<State> {
    if events == [] then Some(FRESH) else
      var before := Accepts(events[..|events| - 1]);
      var e := events[|events| - 1];
      if before.Some? && Rejection(before.value, e).None? then Some(After(before.value, e)) else None
  }

  /** It does happen: after the refusal the index accepts deltas of the refused kind and no others. */
  lemma OverwrittenKind(index: nat, was: ContentKind, now: ContentKind)
    requires was != now
    ensures var s := Accepts([Started, ContentAdded(index, was)]);
            && s.Some? && Rejection(s.value, ContentAdded(index, now)) == Some(DuplicateContent(index))
            && var t := After(s.value, ContentAdded(index, now));
               t != s.value && forall kind :: Rejection(t, Delta(index, kind)).None? <==> kind == now
  {
    var events := [Started, ContentAdded(index, was)];
    assert events[..1] == [Started] && [Started][..0] == [];
    assert Accepts([Started]) == Some(After(FRESH, Started));
  }

  // ----- the contract -----

  /** Event `i` introduces content `index` of kind `kind`. */
  predicate Adds(e: Event, index: nat, kind: ContentKind) {
    e == ContentAdded(index, kind)
  }

  /** What may be asked of event `i` looking only at the stream up to it. */
  ghost predicate InOrder(events: seq<Event>, i: nat)
    requires i < |events|
  {
    && (events[i].Started? <==> i == 0)
    && (forall j | 0 <= j < i :: !events[j].Completed?)
    && match events[i]
       case ContentAdded(index, _) => forall j | 0 <= j < i && events[j].ContentAdded? :: events[j].index != index
       case Delta(target, expects) => exists j :: 0 <= j < i && Adds(events[j], target, expects)
       case _ => true
  }

  /** The whole contract: every event in order, and the stream ends with Completed. */
  ghost predicate WellFormed(events: seq<Event>) {
    && (forall i | 0 <= i < |events| :: InOrder(events, i))
    && events != [] && events[|events| - 1].Completed?
  }

  ghost predicate Extendable(events: seq<Event>) {
    exists more: seq<Event> :: WellFormed(events + more)
  }

  // ----- the validator decides the contract -----

  /** The validator's state says exactly what the accepted stream contains. */
  ghost predicate Mirrors(s: State, events: seq<Event>) {
    && (s.started <==> events != [])
    && (s.completed <==> exists i :: 0 <= i < |events| && events[i].Completed?)
    && (forall i | 0 <= i < |events| && events[i].ContentAdded? ::
          events[i].index in s.content && s.content[events[i].index] == events[i].kind)
    && (forall index | index in s.content :: exists i :: 0 <= i < |events| && Adds(events[i], index, s.content[index]))
  }

  lemma InOrderPrefix(events: seq<Event>, n: nat, i: nat)
    requires i < n <= |events|
    ensures InOrder(events[..n], i) <==> InOrder(events, i)
  {
  }

  lemma {:induction false} AcceptsIffInOrder(events: seq<Event>)
    ensures Accepts(events).Some? <==> forall i | 0 <= i < |events| :: InOrder(events, i)
    ensures Accepts(events).Some? ==> Mirrors(Accepts(events).value, events)
  {
    if events != [] {
      var n := |events| - 1;
      var before := events[..n];
      AcceptsIffInOrder(before);
      forall i | 0 <= i < n ensures InOrder(before, i) <==> InOrder(events, i) { InOrderPrefix(events, n, i); }
      if Accepts(before).Some? {
        LastInOrder(Accepts(before).value, events);
        if Accepts(events).Some? { MirrorsAfter(Accepts(before).value, events); }
      }
    }
  }

  lemma LastInOrder(s: State, events: seq<Event>)
    requires events != [] && Mirrors(s, events[..|events| - 1])
    ensures Rejection(s, events[|events| - 1]).None? <==> InOrder(events, |events| - 1)
  {
  }

  lemma MirrorsAfter(s: State, events: seq<Event>)
    requires events != [] && Mirrors(s, events[..|events| - 1]) && Rejection(s, events[|events| - 1]).None?
    ensures Mirrors(After(s, events[|events| - 1]), events)
  {
  }

  /** A stream passes `observe` on every event and `finish` at the end exactly when it is well formed. */
  lemma ValidatorDecidesContract(events: seq<Event>)
    ensures Accepts(events).Some? && FinishError(Accepts(events).value).None? <==> WellFormed(events)
  {
    AcceptsIffInOrder(events);
    if Accepts(events).Some? && Accepts(events).value.completed {
      assert InOrder(events, |events| - 1);
    }
  }

  /**
   * The validator accepts a prefix exactly as long as some valid stream continues it, so its first
   * error comes at the earliest event at which the stream is beyond repair.
   */
  lemma AcceptsIffExtendable(events: seq<Event>)
    ensures Accepts(events).Some? <==> Extendable(events)
  {
    AcceptsIffInOrder(events);
    if Accepts(events).Some? {
      var more := if events == [] then [Started, Completed]
                  else if Accepts(events).value.completed then []
                  else [Completed];
      ExtensionWorks(events, more);
    } else if Extendable(events) {
      var more :| WellFormed(events + more);
      forall i | 0 <= i < |events| ensures InOrder(events, i) {
        assert (events + more)[..|events|] == events;
        InOrderPrefix(events + more, |events|, i);
      }
    }
  }

  lemma ExtensionWorks(events: seq<Event>, more: seq<Event>)
    requires Accepts(events).Some?
    requires more == if events == [] then [Started, Completed]
                     else if Accepts(events).value.completed then []
                     else [Completed]
    ensures WellFormed(events + more)
  {
    AcceptsIffInOrder(events);
    if more == [Completed] {
      assert (events + more)[..|events|] == events;
      ValidatorDecidesContract(events + more);
    } else if more == [] {
      assert events + more == events;
      ValidatorDecidesContract(events);
    }
  }
}
