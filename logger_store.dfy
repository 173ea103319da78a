/**
 * The shapes of the PulseCore store types that the core hands records to:
 * the store's log level, its metadata values and the record `storeMessage`
 * receives. The store itself (persistence, Core Data) is not modelled; a
 * `MessageStore` only remembers the records handed to it.
 */
module LoggerStore {

  /** `LoggerStore.Level`: the seven levels the core converts to and offers toggles for. */
  datatype Level = Trace | Debug | Info | Notice | Warning | Error | Critical

  /** The severity rank of a level, from trace (lowest) to critical (highest). */
  function Rank(l: Level): nat {
    match l
    case Trace => 0
    case Debug => 1
    case Info => 2
    case Notice => 3
    case Warning => 4
    case Error => 5
    case Critical => 6
  }

  /**
   * `LoggerStore.Level.allCases`: each level once. Only its count and its
   * set of elements are used, never its order.
   */
  const AllCases: seq<Level> := [Trace, Debug, Info, Notice, Warning, Error, Critical]

  /** `Set(LoggerStore.Level.allCases)`. */
  const AllLevels: set<Level> := {Trace, Debug, Info, Notice, Warning, Error, Critical}

  /** `LoggerStore.MetadataValue`: only textual values can be stored. */
  datatype MetadataValue = String(text: string) | StringConvertible(description: string)

  type Metadata = map<string, MetadataValue>

  /** The arguments of one `storeMessage` call. */
  datatype StoredMessage = StoredMessage(
    labelName: string,
    level: Level,
    message: string,
    metadata: Metadata,
    file: string,
    functionName: string,
    line: nat)

  /** A store, seen only through the records handed to it. */
  class MessageStore {
    var messages: seq<StoredMessage>

    constructor ()
      ensures messages == []
    {
      messages := [];
    }

    /** `storeMessage(label:level:message:metadata:file:function:line:)`. */
    method StoreMessage(m: StoredMessage)
      modifies this
      ensures messages == old(messages) + [m]
    {
      messages := messages + [m];
    }
  }

  /** Every level is listed in `allCases` and so belongs to `Set(allCases)`. */
  lemma AllCasesListsEveryLevel(l: Level)
    ensures l in AllCases && l in AllLevels
  {
  }

  /**
   * A set of levels has as many elements as `allCases` exactly when it is
   * the full set: the panel's "All" toggle compares counts, not sets.
   */
  lemma {:induction false} CountIsAllCasesIffFull(levels: set<Level>)
    ensures |levels| == |AllCases| <==> levels == AllLevels
  {
    assert |AllLevels| == 7 by {
      assert AllLevels == {Trace} + {Debug} + {Info} + {Notice} + {Warning} + {Error} + {Critical};
    }
    assert levels <= AllLevels by {
      forall l | l in levels ensures l in AllLevels { AllCasesListsEveryLevel(l); }
    }
    if levels != AllLevels {
      var missing :| missing in AllLevels && missing !in levels;
      SubsetCardinality(levels, AllLevels - {missing});
    }
  }

  /** A subset is no larger than its superset. */
  lemma {:induction false} SubsetCardinality<T>(a: set<T>, b: set<T>)
    requires a <= b
    ensures |a| <= |b|
    decreases a
  {
    if a != {} {
      var x :| x in a;
      SubsetCardinality(a - {x}, b - {x});
    }
  }
}
