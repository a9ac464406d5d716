/**
 * Call order through the assembled pipeline, made observable: each wrapper
 * records an entry event before calling the handler it wraps and an exit
 * event after it returns, and the terminal records the network call. The
 * handlers here map the trace so far to the trace afterwards.
 */
module CallOrder {
  import opened Composition
  import opened Dispatch

  datatype Layer = TypedMiddleware(i: nat) | FormatStep | RawMiddleware(i: nat)
  datatype Event = Enter(layer: Layer) | Exit(layer: Layer) | NetworkCall

  type Trace = seq<Event>
  type Tracer = Trace -> Trace

  /** A wrapper that logs entering `l`, calls `next`, then logs leaving `l`. */
  function Tracing(l: Layer): Tracer -> Tracer
  {
    (next: Tracer) => (t: Trace) => next(t + [Enter(l)]) + [Exit(l)]
  }

  /** The terminal handler: the network call of `runFetch`. */
  function TracedFetch(): Tracer
  {
    (t: Trace) => t + [NetworkCall]
  }

  function Tracers(ls: seq<Layer>): seq<Tracer -> Tracer>
  {
    if ls == [] then [] else [Tracing(ls[0])] + Tracers(ls[1..])
  }

  /** Entry events in list order. */
  function Entries(ls: seq<Layer>): Trace
  {
    if ls == [] then [] else [Enter(ls[0])] + Entries(ls[1..])
  }

  /** Exit events in reverse list order. */
  function Exits(ls: seq<Layer>): Trace
  {
    if ls == [] then [] else Exits(ls[1..]) + [Exit(ls[0])]
  }

  /**
   * Composed tracing wrappers are entered left to right and exited right to
   * left, with the terminal called once in the middle.
   */
  lemma {:induction false} ComposeCallOrder(ls: seq<Layer>, terminal: Tracer, t: Trace)
    ensures Compose(Tracers(ls), terminal)(t) == terminal(t + Entries(ls)) + Exits(ls)
  {
    if ls != [] {
      var rest := Tracers(ls[1..]);
      assert Tracers(ls)[0] == Tracing(ls[0]);
      assert Tracers(ls)[1..] == rest;
      var inner := Compose(rest, terminal);
      calc {
        Compose(Tracers(ls), terminal)(t);
        Tracing(ls[0])(inner)(t);
        inner(t + [Enter(ls[0])]) + [Exit(ls[0])];
        { ComposeCallOrder(ls[1..], terminal, t + [Enter(ls[0])]); }
        terminal(t + [Enter(ls[0])] + Entries(ls[1..])) + Exits(ls[1..]) + [Exit(ls[0])];
        { assert t + [Enter(ls[0])] + Entries(ls[1..]) == t + Entries(ls); }
        terminal(t + Entries(ls)) + Exits(ls);
      }
    } else {
      assert t + Entries(ls) == t;
    }
  }

  /** The trace of one dispatch: typed entries, format entry, raw entries, the call, then the exits mirrored. */
  function DispatchTrace(typed: seq<Layer>, raw: seq<Layer>): Trace
  {
    Entries(typed) + [Enter(FormatStep)] + Entries(raw) + [NetworkCall]
    + Exits(raw) + [Exit(FormatStep)] + Exits(typed)
  }

  /**
   * The whole pipeline: the typed middlewares are entered in list order, then
   * the format step, then the raw middlewares in list order; the network call
   * sits in the middle and the exits mirror the entries.
   */
  lemma PipelineCallOrder(typed: seq<Layer>, raw: seq<Layer>)
    ensures Assemble(Tracers(typed), Tracing(FormatStep), Tracers(raw), TracedFetch())([])
         == DispatchTrace(typed, raw)
  {
    var baseFetch := Compose(Tracers(raw), TracedFetch());
    var formatFetch := Tracing(FormatStep)(baseFetch);
    ComposeCallOrder(typed, formatFetch, []);
    ComposeCallOrder(raw, TracedFetch(), Entries(typed) + [Enter(FormatStep)]);
    assert [] + Entries(typed) == Entries(typed);
  }

  /** How often an event occurs in a trace. */
  function Occurrences(t: Trace, e: Event): nat
  {
    if t == [] then 0 else (if t[0] == e then 1 else 0) + Occurrences(t[1..], e)
  }

  lemma {:induction false} OccurrencesAppend(s: Trace, t: Trace, e: Event)
    ensures Occurrences(s + t, e) == Occurrences(s, e) + Occurrences(t, e)
  {
    if s != [] {
      assert (s + t)[1..] == s[1..] + t;
      OccurrencesAppend(s[1..], t, e);
    } else {
      assert s + t == t;
    }
  }

  /** Wrapper events of a list never record the network call or a layer missing from the list. */
  lemma {:induction false} EventsOnlyOfListedLayers(ls: seq<Layer>, l: Layer)
    requires l !in ls
    ensures Occurrences(Entries(ls), Enter(l)) == 0 && Occurrences(Entries(ls), Exit(l)) == 0
    ensures Occurrences(Exits(ls), Enter(l)) == 0 && Occurrences(Exits(ls), Exit(l)) == 0
    ensures Occurrences(Entries(ls), NetworkCall) == 0 && Occurrences(Exits(ls), NetworkCall) == 0
  {
    if ls != [] {
      EventsOnlyOfListedLayers(ls[1..], l);
      var x := ls[0];
      OccurrencesAppend(Exits(ls[1..]), [Exit(x)], Enter(l));
      OccurrencesAppend(Exits(ls[1..]), [Exit(x)], Exit(l));
      OccurrencesAppend(Exits(ls[1..]), [Exit(x)], NetworkCall);
      assert ([Enter(x)] + Entries(ls[1..]))[1..] == Entries(ls[1..]);
      assert [Exit(x)][1..] == [];
    }
  }

  /** Occurrences of `e` in the dispatch trace, counted piece by piece. */
  lemma DispatchTraceOccurrences(typed: seq<Layer>, raw: seq<Layer>, e: Event)
    ensures Occurrences(DispatchTrace(typed, raw), e)
         == Occurrences(Entries(typed), e) + Occurrences([Enter(FormatStep)], e)
            + Occurrences(Entries(raw), e) + Occurrences([NetworkCall], e)
            + Occurrences(Exits(raw), e) + Occurrences([Exit(FormatStep)], e)
            + Occurrences(Exits(typed), e)
  {
    var p1 := Entries(typed) + [Enter(FormatStep)];
    var p2 := p1 + Entries(raw);
    var p3 := p2 + [NetworkCall];
    var p4 := p3 + Exits(raw);
    var p5 := p4 + [Exit(FormatStep)];
    OccurrencesAppend(Entries(typed), [Enter(FormatStep)], e);
    OccurrencesAppend(p1, Entries(raw), e);
    OccurrencesAppend(p2, [NetworkCall], e);
    OccurrencesAppend(p3, Exits(raw), e);
    OccurrencesAppend(p4, [Exit(FormatStep)], e);
    OccurrencesAppend(p5, Exits(typed), e);
  }

  /**
   * When the middleware lists are not themselves the format step, a dispatch
   * enters and leaves the format step exactly once and calls the network once.
   */
  lemma FormatStepAndNetworkCallOnce(typed: seq<Layer>, raw: seq<Layer>)
    requires FormatStep !in typed && FormatStep !in raw
    ensures var trace := Assemble(Tracers(typed), Tracing(FormatStep), Tracers(raw), TracedFetch())([]);
            && Occurrences(trace, Enter(FormatStep)) == 1
            && Occurrences(trace, Exit(FormatStep)) == 1
            && Occurrences(trace, NetworkCall) == 1
  {
    PipelineCallOrder(typed, raw);
    EventsOnlyOfListedLayers(typed, FormatStep);
    EventsOnlyOfListedLayers(raw, FormatStep);
    DispatchTraceOccurrences(typed, raw, Enter(FormatStep));
    DispatchTraceOccurrences(typed, raw, Exit(FormatStep));
    DispatchTraceOccurrences(typed, raw, NetworkCall);
    assert [Enter(FormatStep)][1..] == [];
  }
}
