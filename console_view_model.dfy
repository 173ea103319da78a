/**
 * The console view model: the list of messages it shows, replaced wholesale
 * after every fetch, and the "only errors" quick filter, which rewrites the
 * level filters in the search criteria.
 */
module Console {
  import opened Wrappers

  /** A fetched message, known here only by its identity. */
  datatype MessageEntity = MessageEntity(id: nat)

  /** What a search filter looks at: the level, or some other field. */
  datatype Kind = Level | OtherKind(name: string)

  /** How a search filter compares: equality, or some other relation. */
  datatype Relation = Equals | OtherRelation(name: string)

  /** The view model's `ConsoleSearchFilter`. */
  datatype SearchFilter = SearchFilter(text: string, kind: Kind, relation: Relation)

  /** `ConsoleSearchCriteria`, of which only the filter list is used here. */
  datatype SearchCriteria = SearchCriteria(filters: seq<SearchFilter>)

  const ErrorFilter := SearchFilter("error", Level, Equals)
  const FatalFilter := SearchFilter("fatal", Level, Equals)

  predicate IsLevelFilter(f: SearchFilter) {
    f.kind == Level
  }

  /**
   * `removeAll(where: { $0.kind == .level })`: the filters that are not
   * level filters, in their original order.
   */
  function WithoutLevelFilters(fs: seq<SearchFilter>): (r: seq<SearchFilter>)
    ensures |r| <= |fs|
    ensures forall i | 0 <= i < |r| :: !IsLevelFilter(r[i])
  {
    if fs == [] then []
    else (if IsLevelFilter(fs[0]) then [] else [fs[0]]) + WithoutLevelFilters(fs[1..])
  }

  /** Exactly the non-level filters of the list survive. */
  lemma {:induction false} WithoutLevelFiltersMembers(fs: seq<SearchFilter>, f: SearchFilter)
    ensures f in WithoutLevelFilters(fs) <==> f in fs && !IsLevelFilter(f)
  {
    if fs != [] {
      WithoutLevelFiltersMembers(fs[1..], f);
      assert fs == [fs[0]] + fs[1..];
    }
  }

  /**
   * The filter list `setOnlyErrorsEnabled` leaves: the non-level filters,
   * followed, when the flag is on, by the "error" and "fatal" level filters.
   */
  function OnlyErrorsFilters(fs: seq<SearchFilter>, onlyErrors: bool): (r: seq<SearchFilter>)
    ensures |r| == |WithoutLevelFilters(fs)| + (if onlyErrors then 2 else 0)
    ensures forall i | 0 <= i < |r| && IsLevelFilter(r[i]) ::
              onlyErrors && i >= |r| - 2 && r[i] in {ErrorFilter, FatalFilter}
  {
    WithoutLevelFilters(fs) + (if onlyErrors then [ErrorFilter, FatalFilter] else [])
  }

  /** Removing level filters distributes over concatenation. */
  lemma {:induction false} WithoutLevelFiltersAppend(a: seq<SearchFilter>, b: seq<SearchFilter>)
    ensures WithoutLevelFilters(a + b) == WithoutLevelFilters(a) + WithoutLevelFilters(b)
  {
    if a == [] {
      assert a + b == b;
    } else {
      assert (a + b)[1..] == a[1..] + b;
      WithoutLevelFiltersAppend(a[1..], b);
    }
  }

  /** A list without level filters is left as it is. */
  lemma {:induction false} WithoutLevelFiltersKeepsClean(fs: seq<SearchFilter>)
    requires forall i | 0 <= i < |fs| :: !IsLevelFilter(fs[i])
    ensures WithoutLevelFilters(fs) == fs
  {
    if fs != [] {
      WithoutLevelFiltersKeepsClean(fs[1..]);
    }
  }

  /** A list of level filters only is removed entirely. */
  lemma {:induction false} WithoutLevelFiltersDropsLevels(fs: seq<SearchFilter>)
    requires forall i | 0 <= i < |fs| :: IsLevelFilter(fs[i])
    ensures WithoutLevelFilters(fs) == []
  {
    if fs != [] {
      WithoutLevelFiltersDropsLevels(fs[1..]);
    }
  }

  /** With the flag off, no level filter is left. */
  lemma OnlyErrorsOffHasNoLevelFilters(fs: seq<SearchFilter>)
    ensures forall f | f in OnlyErrorsFilters(fs, false) :: !IsLevelFilter(f)
  {
  }

  /**
   * With the flag on, the list ends with the "error" and "fatal" filters,
   * both level filters with relation equals, and these are its only level
   * filters.
   */
  lemma OnlyErrorsOnEndsWithErrorAndFatal(fs: seq<SearchFilter>)
    ensures var r := OnlyErrorsFilters(fs, true);
            && |r| >= 2
            && r[|r| - 2..] == [SearchFilter("error", Level, Equals), SearchFilter("fatal", Level, Equals)]
            && forall i | 0 <= i < |r| - 2 :: !IsLevelFilter(r[i])
  {
  }

  /**
   * Every non-level filter is kept, in its original relative order, ahead
   * of any appended level filter.
   */
  lemma {:induction false} OnlyErrorsKeepsOtherFilters(fs: seq<SearchFilter>, onlyErrors: bool)
    ensures var r := OnlyErrorsFilters(fs, onlyErrors);
            && WithoutLevelFilters(r) == WithoutLevelFilters(fs)
            && r[..|WithoutLevelFilters(fs)|] == WithoutLevelFilters(fs)
  {
    var kept := WithoutLevelFilters(fs);
    var added: seq<SearchFilter> := if onlyErrors then [ErrorFilter, FatalFilter] else [];
    WithoutLevelFiltersAppend(kept, added);
    WithoutLevelFiltersKeepsClean(kept);
    WithoutLevelFiltersDropsLevels(added);
    assert (kept + added)[..|kept|] == kept;
  }

  /**
   * The result depends only on the flag and the non-level filters: any
   * earlier level filters, wherever they stood, have no influence.
   */
  lemma {:induction false} OnlyErrorsIgnoresLevelFilters(a: seq<SearchFilter>, b: seq<SearchFilter>, f: SearchFilter, onlyErrors: bool)
    requires IsLevelFilter(f)
    ensures OnlyErrorsFilters(a + [f] + b, onlyErrors) == OnlyErrorsFilters(a + b, onlyErrors)
  {
    calc {
      WithoutLevelFilters(a + [f] + b);
      { WithoutLevelFiltersAppend(a + [f], b); }
      WithoutLevelFilters(a + [f]) + WithoutLevelFilters(b);
      { WithoutLevelFiltersAppend(a, [f]); }
      WithoutLevelFilters(a) + WithoutLevelFilters([f]) + WithoutLevelFilters(b);
      { WithoutLevelFiltersDropsLevels([f]); }
      WithoutLevelFilters(a) + WithoutLevelFilters(b);
      { WithoutLevelFiltersAppend(a, b); }
      WithoutLevelFilters(a + b);
    }
  }

  /**
   * The last call wins: applying the quick filter after any earlier
   * application gives what applying it once gives; in particular the
   * operation is idempotent.
   */
  lemma {:induction false} OnlyErrorsLastCallWins(fs: seq<SearchFilter>, first: bool, second: bool)
    ensures OnlyErrorsFilters(OnlyErrorsFilters(fs, first), second) == OnlyErrorsFilters(fs, second)
  {
    OnlyErrorsKeepsOtherFilters(fs, first);
  }

  lemma OnlyErrorsIdempotent(fs: seq<SearchFilter>, onlyErrors: bool)
    ensures OnlyErrorsFilters(OnlyErrorsFilters(fs, onlyErrors), onlyErrors) == OnlyErrorsFilters(fs, onlyErrors)
  {
    OnlyErrorsLastCallWins(fs, onlyErrors, onlyErrors);
  }

  /**
   * `filters.removeAll(where:)`, written as the loop it performs: keep each
   * filter that is not a level filter, in order.
   */
  method RemoveLevelFilters(filters: seq<SearchFilter>) returns (kept: seq<SearchFilter>)
    ensures kept == WithoutLevelFilters(filters)
  {
    kept := [];
    var i := 0;
    while i < |filters|
      invariant 0 <= i <= |filters|
      invariant kept == WithoutLevelFilters(filters[..i])
    {
      var f := filters[i];
      ghost var done := filters[..i];
      assert filters[..i + 1] == done + [f];
      assert WithoutLevelFilters([f]) == if IsLevelFilter(f) then [] else [f] by {
        assert [f][1..] == [];
      }
      WithoutLevelFiltersAppend(done, [f]);
      if !IsLevelFilter(f) {
        kept := kept + [f];
      }
      i := i + 1;
    }
    assert filters[..i] == filters;
  }

  /** `fetchedObjects ?? []`: the fetched objects, or none when there are none. */
  function MessagesFrom(fetched: Option<seq<MessageEntity>>): (r: seq<MessageEntity>)
    ensures fetched.Some? ==> r == fetched.value
    ensures fetched.None? ==> r == []
  {
    fetched.GetOr([])
  }

  /**
   * `ConsoleViewModel`. The fetched-results controller is not modelled:
   * each operation that reads its `fetchedObjects` receives them.
   */
  class ConsoleViewModel {
    var messages: seq<MessageEntity>
    var searchText: string
    var searchCriteria: SearchCriteria
    var onlyErrors: bool

    /**
     * `init(logger:)`. Both subscriptions receive their publishers' current
     * values as soon as they are made: the search subscription refreshes,
     * then the `onlyErrors` subscription applies the flag, off, which
     * removes every level filter from the starting criteria; that change
     * is published and refreshes once more. `fetched` is the outcome of
     * the last refresh.
     */
    constructor (initialCriteria: SearchCriteria, fetched: Option<seq<MessageEntity>>)
      ensures messages == MessagesFrom(fetched)
      ensures searchText == "" && !onlyErrors
      ensures searchCriteria == initialCriteria.(filters := OnlyErrorsFilters(initialCriteria.filters, false))
      ensures forall f | f in searchCriteria.filters :: !IsLevelFilter(f)
    {
      messages := [];
      searchText := "";
      searchCriteria := initialCriteria;
      onlyErrors := false;
      new;
      Refresh(searchText, searchCriteria, fetched);
      SetOnlyErrorsEnabled(onlyErrors);
      Refresh(searchText, searchCriteria, fetched);
    }

    /**
     * `refresh(searchText:criteria:)`: after the query is rebuilt and run
     * (outside this model; its outcome is `fetched`), the shown messages
     * are exactly the fetched ones. Nothing else changes.
     */
    method Refresh(searchText: string, criteria: SearchCriteria, fetched: Option<seq<MessageEntity>>)
      modifies this`messages
      ensures messages == MessagesFrom(fetched)
    {
      messages := MessagesFrom(fetched);
    }

    /** `controllerDidChangeContent(_:)`: the shown messages follow the store. */
    method ControllerDidChangeContent(fetched: Option<seq<MessageEntity>>)
      modifies this`messages
      ensures messages == MessagesFrom(fetched)
    {
      messages := MessagesFrom(fetched);
    }

    /**
     * Writing the `onlyErrors` flag: the view model records it, and its
     * subscription applies it to the filter list at once.
     */
    method SetOnlyErrors(onlyErrors: bool)
      modifies this`onlyErrors, this`searchCriteria
      ensures this.onlyErrors == onlyErrors
      ensures searchCriteria == old(searchCriteria).(filters := OnlyErrorsFilters(old(searchCriteria.filters), onlyErrors))
    {
      this.onlyErrors := onlyErrors;
      SetOnlyErrorsEnabled(onlyErrors);
    }

    /**
     * `setOnlyErrorsEnabled(_:)`: drop every level filter and, when the
     * flag is on, append the "error" and "fatal" level filters.
     */
    method SetOnlyErrorsEnabled(onlyErrors: bool)
      modifies this`searchCriteria
      ensures searchCriteria == old(searchCriteria).(filters := OnlyErrorsFilters(old(searchCriteria.filters), onlyErrors))
      ensures !onlyErrors ==> forall f | f in searchCriteria.filters :: !IsLevelFilter(f)
    {
      var filters := searchCriteria.filters;
      filters := RemoveLevelFilters(filters);
      if onlyErrors {
        filters := filters + [ErrorFilter];
        filters := filters + [FatalFilter];
      }
      searchCriteria := searchCriteria.(filters := filters);
    }
  }
}
