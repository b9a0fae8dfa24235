/** The script structures: ranges, modifications, actions. */
module Scripts {
  import opened Bytes

  datatype Option<+T> = None | Some(value: T)

  /** For an action `second` is the exclusive end; for a modification it is the length. */
  datatype Range = Range(start: uint32, second: uint32)

  datatype ModificationType = CounterType | TimestampType

  datatype CounterModification =
    CounterModification(counterBytes: Range, counterStep: uint32, littleEndian: bool)

  datatype TimestampModification =
    TimestampModification(timestampBytes: Range, littleEndian: bool, formatName: string)

  /** One entry of the modification list as the user writes it. */
  datatype Modification =
    | CounterMod(counter: CounterModification)
    | TimestampMod(timestamp: TimestampModification)
  {
    function Bytes(): Range {
      if CounterMod? then counter.counterBytes else timestamp.timestampBytes
    }

    function Kind(): ModificationType {
      if CounterMod? then CounterType else TimestampType
    }
  }

  datatype ActionType = Create | Connect | Send | Flood | Drain | Disconnect

  datatype Action = Action(
    kind: ActionType,
    count: uint32,
    range: Range,
    offsetMs: uint32,
    packetIdentifier: string,
    timestampMods: seq<TimestampModification>,
    counterMods: seq<CounterModification>,
    modOrder: seq<ModificationType>)
  {
    ghost predicate Balanced() {
      Matches(modOrder, counterMods, timestampMods)
    }

    /** The modification list this action stands for. */
    ghost function Modifications(): seq<Modification>
      requires Balanced()
    {
      Merge(modOrder, counterMods, timestampMods)
    }
  }

  /** The order names each entry of the two lists exactly once. */
  ghost predicate Matches(order: seq<ModificationType>,
                          cs: seq<CounterModification>, ts: seq<TimestampModification>)
  {
    if order == [] then cs == [] && ts == []
    else if order[0] == CounterType then cs != [] && Matches(order[1..], cs[1..], ts)
    else ts != [] && Matches(order[1..], cs, ts[1..])
  }

  /** Interleaves the two lists as the order says. */
  ghost function Merge(order: seq<ModificationType>,
                       cs: seq<CounterModification>, ts: seq<TimestampModification>): seq<Modification>
    requires Matches(order, cs, ts)
  {
    if order == [] then []
    else if order[0] == CounterType then [CounterMod(cs[0])] + Merge(order[1..], cs[1..], ts)
    else [TimestampMod(ts[0])] + Merge(order[1..], cs, ts[1..])
  }

  /** Appending to one list and to the order appends to the list they stand for. */
  lemma {:induction false} MergeSnoc(order: seq<ModificationType>,
                                     cs: seq<CounterModification>, ts: seq<TimestampModification>, m: Modification)
    requires Matches(order, cs, ts)
    ensures var order', cs', ts' := order + [m.Kind()],
              if m.CounterMod? then cs + [m.counter] else cs,
              if m.CounterMod? then ts else ts + [m.timestamp];
            Matches(order', cs', ts') && Merge(order', cs', ts') == Merge(order, cs, ts) + [m]
  {
    var order' := order + [m.Kind()];
    var cs' := if m.CounterMod? then cs + [m.counter] else cs;
    var ts' := if m.CounterMod? then ts else ts + [m.timestamp];
    if order == [] {
      assert order'[1..] == [];
      assert cs'[if m.CounterMod? then 1 else 0..] == [] && ts'[if m.CounterMod? then 0 else 1..] == [];
    } else {
      assert order'[1..] == order[1..] + [m.Kind()];
      if order[0] == CounterType {
        assert cs'[1..] == if m.CounterMod? then cs[1..] + [m.counter] else cs[1..];
        MergeSnoc(order[1..], cs[1..], ts, m);
      } else {
        assert ts'[1..] == if m.CounterMod? then ts[1..] else ts[1..] + [m.timestamp];
        MergeSnoc(order[1..], cs, ts[1..], m);
      }
    }
  }

  /** `a` with one more modification. */
  ghost function Pushed(a: Action, m: Modification): Action {
    a.(timestampMods := a.timestampMods + if m.TimestampMod? then [m.timestamp] else [],
       counterMods := a.counterMods + if m.CounterMod? then [m.counter] else [],
       modOrder := a.modOrder + [m.Kind()])
  }

  /** An action while the parser fills it in. */
  class ActionRecord {
    var kind: ActionType
    var count: uint32
    var range: Range
    var offsetMs: uint32
    var packetIdentifier: string
    var timestampMods: seq<TimestampModification>
    var counterMods: seq<CounterModification>
    var modOrder: seq<ModificationType>

    constructor ()
      ensures Value() == Action(Create, 0, Range(0, 0), 0, "", [], [], [])
    {
      kind, count, range, offsetMs := Create, 0, Range(0, 0), 0;
      packetIdentifier, timestampMods, counterMods, modOrder := "", [], [], [];
    }

    function Value(): Action
      reads this
    {
      Action(kind, count, range, offsetMs, packetIdentifier, timestampMods, counterMods, modOrder)
    }

    method PushModifier(m: Modification)
      requires Value().Balanced()
      modifies this
      ensures Value().Balanced()
      ensures Value().Modifications() == old(Value().Modifications()) + [m]
      ensures Value() == Pushed(old(Value()), m)
    {
      MergeSnoc(modOrder, counterMods, timestampMods, m);
      match m
      case TimestampMod(t) =>
        timestampMods := timestampMods + [t];
        modOrder := modOrder + [TimestampType];
      case CounterMod(c) =>
        counterMods := counterMods + [c];
        modOrder := modOrder + [CounterType];
    }
  }
}
