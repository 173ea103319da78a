/**
 * The macOS console filter panel, seen as the operations its controls
 * perform on the filter criteria: the level and label toggles, the date
 * pickers and presets, the per-section resets and the "is default" tests
 * that decide whether a section offers its reset button.
 */
module ConsoleFiltersPanel {
  import opened Wrappers
  import Store = LoggerStore

  /** `criteria.logLevels`: the levels to show. */
  datatype LogLevelsFilter = LogLevelsFilter(isEnabled: bool, levels: set<Store.Level>)

  /** `criteria.labels`: labels to hide, or a single label to focus on. */
  datatype LabelsFilter = LabelsFilter(isEnabled: bool, hidden: set<string>, focused: Option<string>)

  /** `criteria.dates`; dates are seconds on an abstract clock. */
  datatype DatesFilter = DatesFilter(
    isEnabled: bool,
    isCurrentSessionOnly: bool,
    isStartDateEnabled: bool,
    startDate: Option<int>,
    isEndDateEnabled: bool,
    endDate: Option<int>)

  /** The criteria record the panel edits. */
  datatype Criteria = Criteria(
    isFiltersEnabled: bool,
    logLevels: LogLevelsFilter,
    labels: LabelsFilter,
    dates: DatesFilter)

  /** The panel's custom filter: which field, how to match, against what. */
  datatype Field = LevelField | LabelField | MessageField | MetadataField | FileField | FunctionField | LineField
  datatype Match = Contains | NotContains | Equal | NotEqual | BeginsWith | Regex
  datatype CustomFilter = CustomFilter(field: Field, matchKind: Match, value: string, isEnabled: bool)

  // The `.default` values of the sub-criteria and of a custom filter.
  const DefaultLogLevels := LogLevelsFilter(true, Store.AllLevels)
  const DefaultLabels := LabelsFilter(true, {}, None)
  const DefaultDates := DatesFilter(true, true, false, None, false, None)
  const DefaultFilter := CustomFilter(MessageField, Contains, "", true)

  /** The "Recent" preset looks back half an hour. */
  const RecentInterval := 1800
  /** An unset start date is shown as one hour ago. */
  const StartDatePlaceholderInterval := 3600

  /** The two columns of per-level toggles. */
  const LowerLevels: seq<Store.Level> := [Store.Trace, Store.Debug, Store.Info, Store.Notice]
  const UpperLevels: seq<Store.Level> := [Store.Warning, Store.Error, Store.Critical]

  /**
   * The levels "All" toggle compares the count of selected levels with the
   * count of all levels; that holds exactly when every level is selected.
   */
  function AllLevelsIsOn(f: LogLevelsFilter): (r: bool)
    ensures r <==> f.levels == Store.AllLevels
  {
    Store.CountIsAllCasesIffFull(f.levels);
    |f.levels| == |Store.AllCases|
  }

  /** A per-level toggle reads on when its level is selected. */
  function LevelIsOn(f: LogLevelsFilter, item: Store.Level): (r: bool)
    ensures r <==> item in f.levels
  {
    item in f.levels
  }

  /** The labels "All" toggle reads on when no label at all is hidden. */
  function AllLabelsIsOn(f: LabelsFilter): (r: bool)
    ensures r <==> |f.hidden| == 0
  {
    f.hidden == {}
  }

  /** A per-label toggle reads on when its label is not hidden. */
  function LabelIsOn(f: LabelsFilter, item: string): (r: bool)
    ensures r <==> item !in f.hidden
  {
    item !in f.hidden
  }

  /** The start date picker shows the start date, or one hour before `now` when unset. */
  function StartDateShown(d: DatesFilter, now: int): (r: int)
    ensures d.startDate.Some? ==> r == d.startDate.value
    ensures d.startDate.None? ==> r == now - StartDatePlaceholderInterval
  {
    d.startDate.GetOr(now - StartDatePlaceholderInterval)
  }

  /** The end date picker shows the end date, or `now` when unset. */
  function EndDateShown(d: DatesFilter, now: int): (r: int)
    ensures d.endDate.Some? ==> r == d.endDate.value
    ensures d.endDate.None? ==> r == now
  {
    d.endDate.GetOr(now)
  }

  /** A custom filter is default when it equals the default filter. */
  predicate IsDefaultFilter(f: CustomFilter) {
    f == DefaultFilter
  }

  /**
   * The "General" section counts as default when it holds a single filter
   * and that filter is default, that is when the list is the default one.
   */
  function GeneralIsDefault(filters: seq<CustomFilter>): (r: bool)
    ensures r <==> filters == [DefaultFilter]
  {
    |filters| == 1 && IsDefaultFilter(filters[0])
  }

  /** The "Levels" section never counts as default, whatever its state. */
  function LevelsIsDefault(f: LogLevelsFilter): (r: bool)
    ensures !r
  {
    false
  }

  /**
   * The "Labels" section counts as default when it equals `.default`: the
   * section is enabled, hides nothing and focuses on nothing.
   */
  function LabelsIsDefault(f: LabelsFilter): (r: bool)
    ensures r <==> f.isEnabled && f.hidden == {} && f.focused == None
  {
    f == DefaultLabels
  }

  /**
   * The "Time Period" section counts as default when it equals `.default`:
   * enabled, current session only, and neither bound enabled nor set.
   */
  function DatesIsDefault(f: DatesFilter): (r: bool)
    ensures r <==> && f.isEnabled && f.isCurrentSessionOnly
                   && !f.isStartDateEnabled && f.startDate == None
                   && !f.isEndDateEnabled && f.endDate == None
  {
    f == DefaultDates
  }

  /**
   * The two level columns list every level exactly once between them, so
   * each level has exactly one toggle.
   */
  lemma LevelSectionsPartition(l: Store.Level)
    ensures (l in LowerLevels) != (l in UpperLevels)
    ensures (set x | x in LowerLevels + UpperLevels) == Store.AllLevels
    ensures |LowerLevels + UpperLevels| == |Store.AllLevels|
  {
    assert |Store.AllLevels| == 7 by { Store.CountIsAllCasesIffFull(Store.AllLevels); }
  }

  /** In the default label state every toggle, "All" included, reads on. */
  lemma DefaultLabelsShowEverything(f: LabelsFilter, item: string)
    requires LabelsIsDefault(f)
    ensures AllLabelsIsOn(f) && LabelIsOn(f, item) && f.focused == None
  {
  }

  /** Every hidden label is one of the labels the panel shows a toggle for. */
  predicate HiddenAmongKnown(f: LabelsFilter, allLabels: seq<string>) {
    forall l | l in f.hidden :: l in allLabels
  }

  /**
   * While every hidden label is a known one, the labels "All" toggle reads
   * on exactly when every toggle shown, one per known label, reads on.
   */
  lemma {:induction false} AllLabelsIffEveryLabel(f: LabelsFilter, allLabels: seq<string>)
    requires HiddenAmongKnown(f, allLabels)
    ensures AllLabelsIsOn(f) <==> forall item | item in allLabels :: LabelIsOn(f, item)
  {
    if !AllLabelsIsOn(f) {
      var item :| item in f.hidden;
      assert item in allLabels && !LabelIsOn(f, item);
    }
  }

  /**
   * Without that condition the two disagree: a label hidden earlier that is
   * no longer among the known labels keeps "All" off while every toggle
   * shown reads on.
   */
  lemma StaleHiddenLabelKeepsAllOff()
    ensures var f := LabelsFilter(true, {"network"}, None);
            && !AllLabelsIsOn(f)
            && (forall item | item in [] :: LabelIsOn(f, item))
            && !HiddenAmongKnown(f, [])
  {
  }

  /** The levels "All" toggle reads on exactly when every level toggle does. */
  lemma {:induction false} AllLevelsIffEveryLevel(f: LogLevelsFilter)
    ensures AllLevelsIsOn(f) <==> forall item :: LevelIsOn(f, item)
  {
    forall l ensures l in Store.AllLevels { Store.AllCasesListsEveryLevel(l); }
    if forall item :: LevelIsOn(f, item) {
      forall l | l in Store.AllLevels ensures l in f.levels { assert LevelIsOn(f, l); }
      assert f.levels == Store.AllLevels;
    }
  }

  /**
   * `ConsoleSearchCriteriaViewModel` as the panel uses it: the criteria it
   * edits, the custom filter list and the labels seen in the store.
   */
  class CriteriaPanel {
    var criteria: Criteria
    var filters: seq<CustomFilter>
    var allLabels: seq<string>

    /** Sets up an arbitrary starting state; it models no code of the panel. */
    constructor (criteria: Criteria, filters: seq<CustomFilter>, allLabels: seq<string>)
      ensures this.criteria == criteria && this.filters == filters && this.allLabels == allLabels
    {
      this.criteria := criteria;
      this.filters := filters;
      this.allLabels := allLabels;
    }

    /**
     * Setting the levels "All" toggle selects every level or none; the
     * toggle then reads back what was set.
     */
    method SetAllLevels(isOn: bool)
      modifies this`criteria
      ensures criteria == old(criteria).(logLevels := old(criteria).logLevels.(
        levels := if isOn then Store.AllLevels else {}))
      ensures AllLevelsIsOn(criteria.logLevels) == isOn
      ensures forall item :: LevelIsOn(criteria.logLevels, item) == isOn
    {
      if isOn {
        criteria := criteria.(logLevels := criteria.logLevels.(levels := Store.AllLevels));
      } else {
        criteria := criteria.(logLevels := criteria.logLevels.(levels := {}));
      }
      forall item ensures LevelIsOn(criteria.logLevels, item) == isOn {
        Store.AllCasesListsEveryLevel(item);
      }
    }

    /**
     * Setting a per-level toggle inserts or removes that level only; the
     * toggle reads back what was set and every other level reads as before.
     */
    method SetLevel(item: Store.Level, isOn: bool)
      modifies this`criteria
      ensures criteria == old(criteria).(logLevels := old(criteria).logLevels.(
        levels := if isOn then old(criteria).logLevels.levels + {item}
                  else old(criteria).logLevels.levels - {item}))
      ensures LevelIsOn(criteria.logLevels, item) == isOn
      ensures forall l | l != item :: LevelIsOn(criteria.logLevels, l) == old(LevelIsOn(criteria.logLevels, l))
    {
      if isOn {
        criteria := criteria.(logLevels := criteria.logLevels.(levels := criteria.logLevels.levels + {item}));
      } else {
        criteria := criteria.(logLevels := criteria.logLevels.(levels := criteria.logLevels.levels - {item}));
      }
    }

    /**
     * Setting the labels "All" toggle drops the focused label, then hides
     * nothing or every known label. Switched off, it still reads on when no
     * label is known, since hiding every known label then hides nothing.
     */
    method SetAllLabels(isOn: bool)
      modifies this`criteria
      ensures criteria == old(criteria).(labels := old(criteria).labels.(
        focused := None,
        hidden := if isOn then {} else set l | l in allLabels))
      ensures criteria.labels.focused == None
      ensures AllLabelsIsOn(criteria.labels) == (isOn || allLabels == [])
      ensures forall item | item in allLabels :: LabelIsOn(criteria.labels, item) == isOn
      ensures HiddenAmongKnown(criteria.labels, allLabels)
    {
      criteria := criteria.(labels := criteria.labels.(focused := None));
      if isOn {
        criteria := criteria.(labels := criteria.labels.(hidden := {}));
      } else {
        criteria := criteria.(labels := criteria.labels.(hidden := set l | l in allLabels));
        if allLabels != [] {
          assert allLabels[0] in criteria.labels.hidden;
        }
      }
    }

    /**
     * Setting a per-label toggle drops the focused label and un-hides or
     * hides that label only; the toggle reads back what was set.
     */
    method SetLabel(item: string, isOn: bool)
      modifies this`criteria
      ensures criteria == old(criteria).(labels := old(criteria).labels.(
        focused := None,
        hidden := if isOn then old(criteria).labels.hidden - {item}
                  else old(criteria).labels.hidden + {item}))
      ensures criteria.labels.focused == None
      ensures LabelIsOn(criteria.labels, item) == isOn
      ensures forall l | l != item :: LabelIsOn(criteria.labels, l) == old(LabelIsOn(criteria.labels, l))
      ensures old(HiddenAmongKnown(criteria.labels, allLabels)) && item in allLabels ==>
                HiddenAmongKnown(criteria.labels, allLabels)
    {
      criteria := criteria.(labels := criteria.labels.(focused := None));
      if isOn {
        criteria := criteria.(labels := criteria.labels.(hidden := criteria.labels.hidden - {item}));
      } else {
        criteria := criteria.(labels := criteria.labels.(hidden := criteria.labels.hidden + {item}));
      }
    }

    /** The start date picker's setter; the picker then shows that date. */
    method SetStartDate(date: int)
      modifies this`criteria
      ensures criteria == old(criteria).(dates := old(criteria).dates.(startDate := Some(date)))
      ensures forall now :: StartDateShown(criteria.dates, now) == date
    {
      criteria := criteria.(dates := criteria.dates.(startDate := Some(date)));
    }

    /** The end date picker's setter; the picker then shows that date. */
    method SetEndDate(date: int)
      modifies this`criteria
      ensures criteria == old(criteria).(dates := old(criteria).dates.(endDate := Some(date)))
      ensures forall now :: EndDateShown(criteria.dates, now) == date
    {
      criteria := criteria.(dates := criteria.dates.(endDate := Some(date)));
    }

    /**
     * The "Recent" preset: start half an hour before `now`, start bound on,
     * end bound off; the end date itself, the session flag and the section's
     * enabled flag are kept.
     */
    method ApplyRecent(now: int)
      modifies this`criteria
      ensures criteria == old(criteria).(dates := old(criteria).dates.(
        startDate := Some(now - RecentInterval),
        isStartDateEnabled := true,
        isEndDateEnabled := false))
      ensures StartDateShown(criteria.dates, now) == now - RecentInterval
    {
      var dates := criteria.dates;
      dates := dates.(startDate := Some(now - RecentInterval));
      dates := dates.(isStartDateEnabled := true);
      dates := dates.(isEndDateEnabled := false);
      criteria := criteria.(dates := dates);
    }

    /**
     * The "Today" preset: start at the start of the current day (given),
     * start bound on, end bound off; everything else in the dates is kept.
     */
    method ApplyToday(startOfToday: int)
      modifies this`criteria
      ensures criteria == old(criteria).(dates := old(criteria).dates.(
        startDate := Some(startOfToday),
        isStartDateEnabled := true,
        isEndDateEnabled := false))
      ensures forall now :: StartDateShown(criteria.dates, now) == startOfToday
    {
      var dates := criteria.dates;
      dates := dates.(startDate := Some(startOfToday));
      dates := dates.(isStartDateEnabled := true);
      dates := dates.(isEndDateEnabled := false);
      criteria := criteria.(dates := dates);
    }

    /** The "Levels" reset; the section still does not count as default. */
    method ResetLevels()
      modifies this`criteria
      ensures criteria == old(criteria).(logLevels := DefaultLogLevels)
      ensures AllLevelsIsOn(criteria.logLevels) && !LevelsIsDefault(criteria.logLevels)
    {
      criteria := criteria.(logLevels := DefaultLogLevels);
    }

    /** The "Labels" reset; the section then counts as default. */
    method ResetLabels()
      modifies this`criteria
      ensures criteria == old(criteria).(labels := DefaultLabels)
      ensures LabelsIsDefault(criteria.labels) && AllLabelsIsOn(criteria.labels)
      ensures HiddenAmongKnown(criteria.labels, allLabels)
    {
      criteria := criteria.(labels := DefaultLabels);
    }

    /** The "Time Period" reset; the section then counts as default. */
    method ResetDates()
      modifies this`criteria
      ensures criteria == old(criteria).(dates := DefaultDates)
      ensures DatesIsDefault(criteria.dates)
    {
      criteria := criteria.(dates := DefaultDates);
    }
  }
}
