/** The callback routing of src/services/telegraf.js: `bot.action`
    triggers tried in registration order, and the two back handlers that
    look up the missing parent id, overwrite `ctx.callbackQuery.data` with
    a forward token and re-run a forward handler. */
module Router {
  import opened Js
  import opened Catalog
  import opened Tokens
  import opened FileSearch

  datatype Route = BranchRoute | YearRoute | SyllabusRoute | SubjectRoute
                 | BackToBranchesRoute | BackSylRoute | BackYearRoute

  /** The text of a route's trigger. */
  function Trigger(route: Route): string
  {
    match route
    case BranchRoute => "branch_"
    case YearRoute => "year_"
    case SyllabusRoute => "syl_"
    case SubjectRoute => "sub_"
    case BackToBranchesRoute => BackToBranches
    case BackSylRoute => "back_syl_"
    case BackYearRoute => "back_year_"
  }

  /** The regular expressions are anchored prefixes; the string trigger
      `back_to_branches` is compared whole. */
  predicate Triggers(route: Route, data: string)
  {
    if route == BackToBranchesRoute then data == Trigger(route) else StartsWith(data, Trigger(route))
  }

  /** The handler Telegraf runs: the first registered route that matches. */
  function Dispatch(data: string): (r: Option<Route>)
    ensures r.Some? ==> Triggers(r.value, data)
    ensures r.None? ==> forall route :: !Triggers(route, data)
  {
    if Triggers(BranchRoute, data) then Some(BranchRoute)
    else if Triggers(YearRoute, data) then Some(YearRoute)
    else if Triggers(SyllabusRoute, data) then Some(SyllabusRoute)
    else if Triggers(SubjectRoute, data) then Some(SubjectRoute)
    else if Triggers(BackToBranchesRoute, data) then Some(BackToBranchesRoute)
    else if Triggers(BackSylRoute, data) then Some(BackSylRoute)
    else if Triggers(BackYearRoute, data) then Some(BackYearRoute)
    else None
  }

  lemma DifferAt(data: string, p: string, q: string, k: nat)
    requires k < |p| && k < |q| && p[k] != q[k]
    ensures !(StartsWith(data, p) && StartsWith(data, q))
  {
  }

  /** A position where the triggers of two different routes differ. */
  function Distinguish(a: Route, b: Route): (k: nat)
    requires a != b
    ensures k < |Trigger(a)| && k < |Trigger(b)| && Trigger(a)[k] != Trigger(b)[k]
  {
    if Trigger(a)[0] != Trigger(b)[0] then 0
    else if Trigger(a)[1] != Trigger(b)[1] then 1
    else 5
  }

  /** No two triggers match the same data. */
  lemma TriggersExclusive(data: string, a: Route, b: Route)
    ensures a != b ==> !(Triggers(a, data) && Triggers(b, data))
  {
    if a != b {
      DifferAt(data, Trigger(a), Trigger(b), Distinguish(a, b));
    }
  }

  /** Whatever the data, the dispatched route is the only one whose trigger
      matches, so registration order never decides between two handlers. */
  lemma DispatchIsTheOnlyMatch(data: string, route: Route)
    ensures Dispatch(data) == Some(route) <==> Triggers(route, data)
  {
    if Dispatch(data).Some? && Triggers(route, data) {
      TriggersExclusive(data, route, Dispatch(data).value);
    }
  }

  /** Every token the screens build reaches its own handler, whatever the ids. */
  lemma TokensReachTheirHandlers(a: string, b: string)
    ensures Dispatch(BranchToken(a)) == Some(BranchRoute)
    ensures Dispatch(YearToken(a, b)) == Some(YearRoute)
    ensures Dispatch(SylToken(a, b)) == Some(SyllabusRoute)
    ensures Dispatch(SubToken(a, b)) == Some(SubjectRoute)
    ensures Dispatch(BackToBranches) == Some(BackToBranchesRoute)
    ensures Dispatch(BackSylToken(a)) == Some(BackSylRoute)
    ensures Dispatch(BackYearToken(a)) == Some(BackYearRoute)
  {
    assert StartsWith(BranchToken(a), "branch_");
    assert StartsWith(YearToken(a, b), "year_");
    assert StartsWith(SylToken(a, b), "syl_");
    assert StartsWith(SubToken(a, b), "sub_");
    assert StartsWith(BackSylToken(a), "back_syl_");
    assert StartsWith(BackYearToken(a), "back_year_");
    DispatchIsTheOnlyMatch(BranchToken(a), BranchRoute);
    DispatchIsTheOnlyMatch(YearToken(a, b), YearRoute);
    DispatchIsTheOnlyMatch(SylToken(a, b), SyllabusRoute);
    DispatchIsTheOnlyMatch(SubToken(a, b), SubjectRoute);
    DispatchIsTheOnlyMatch(BackToBranches, BackToBranchesRoute);
    DispatchIsTheOnlyMatch(BackSylToken(a), BackSylRoute);
    DispatchIsTheOnlyMatch(BackYearToken(a), BackYearRoute);
  }

  // ---------------------------------------------------------------------
  // The back handlers
  // ---------------------------------------------------------------------

  /** `syllabusResponse?.success && syllabusResponse.data?.academicYear?._id`:
      the year id of the syllabus, when the lookup yields a truthy one. */
  function AcademicYearOf(sylId: string, cat: Catalog): Option<string>
  {
    match cat.syllabus(sylId)
    case Found(s) =>
      if s.academicYear.Some? && s.academicYear.value.id != "" then Some(s.academicYear.value.id) else None
    case _ => None
  }

  /** `yearResponse?.success && yearResponse.data?.branch?._id`. */
  function BranchOf(yearId: string, cat: Catalog): Option<string>
  {
    match cat.year(yearId)
    case Found(y) =>
      if y.branch.Some? && y.branch.value.id != "" then Some(y.branch.value.id) else None
    case _ => None
  }

  /** What a back handler does when its lookup finds no parent. */
  const NavigationFailed: seq<Effect> := [AnswerCb(CouldNotNavigateBack), Reply(UseSearch, [])]

  /** The effects of the `back_syl_` handler. `lookupThrows` stands for an
      exception raised while looking the syllabus up. */
  function BackSyl(data: string, cat: Catalog, lookupThrows: bool): (r: seq<Effect>)
    ensures var sylId := ReplaceFirst(data, "back_syl_", "");
            && (lookupThrows ==> r == [AnswerCb(ErrorOccurred)])
            && (!lookupThrows && AcademicYearOf(sylId, cat).None? ==> r == [Fetch(SyllabusLevel, sylId)] + NavigationFailed)
            && (!lookupThrows && AcademicYearOf(sylId, cat).Some? ==>
                  r == [Fetch(SyllabusLevel, sylId)] + FileDetails(SylToken(sylId, AcademicYearOf(sylId, cat).value), cat))
  {
    var sylId := ReplaceFirst(data, "back_syl_", "");
    if lookupThrows then [AnswerCb(ErrorOccurred)]
    else match AcademicYearOf(sylId, cat)
      case Some(yearId) => [Fetch(SyllabusLevel, sylId)] + FileDetails(SylToken(sylId, yearId), cat)
      case None => [Fetch(SyllabusLevel, sylId)] + NavigationFailed
  }

  /** The effects of the `back_year_` handler. */
  function BackYear(data: string, cat: Catalog, lookupThrows: bool): (r: seq<Effect>)
    ensures var yearId := ReplaceFirst(data, "back_year_", "");
            && (lookupThrows ==> r == [AnswerCb(ErrorOccurred)])
            && (!lookupThrows && BranchOf(yearId, cat).None? ==> r == [Fetch(YearLevel, yearId)] + NavigationFailed)
            && (!lookupThrows && BranchOf(yearId, cat).Some? ==>
                  r == [Fetch(YearLevel, yearId)] + YearSelection(YearToken(yearId, BranchOf(yearId, cat).value), cat))
  {
    var yearId := ReplaceFirst(data, "back_year_", "");
    if lookupThrows then [AnswerCb(ErrorOccurred)]
    else match BranchOf(yearId, cat)
      case Some(branchId) => [Fetch(YearLevel, yearId)] + YearSelection(YearToken(yearId, branchId), cat)
      case None => [Fetch(YearLevel, yearId)] + NavigationFailed
  }

  /** Some effect answers the callback query. */
  predicate Answers(r: seq<Effect>)
  {
    exists i :: 0 <= i < |r| && r[i].AnswerCb?
  }

  /** The effects of the action registered for `route`; every action
      answers the callback query. */
  function RouteEffects(route: Route, data: string, cat: Catalog, lookupThrows: bool): (r: seq<Effect>)
    ensures Answers(r)
  {
    match route
    case BranchRoute => var r := BranchSelection(data, cat); assert r[0].AnswerCb?; r
    case YearRoute => var r := YearSelection(data, cat); assert r[0].AnswerCb?; r
    case SyllabusRoute => var r := FileDetails(data, cat); assert r[0].AnswerCb?; r
    case SubjectRoute => var r := SubjectDetails(data, cat); assert r[0].AnswerCb?; r
    case BackToBranchesRoute => var r := BackToBranchesScreen(cat); assert r[0].AnswerCb?; r
    case BackSylRoute =>
      var r := BackSyl(data, cat, lookupThrows);
      assert r[if lookupThrows then 0 else 1].AnswerCb?;
      r
    case BackYearRoute =>
      var r := BackYear(data, cat, lookupThrows);
      assert r[if lookupThrows then 0 else 1].AnswerCb?;
      r
  }

  /** The effects of handling one callback query: nothing at all for data
      no action matches, and otherwise a run that answers the query. */
  function Handled(data: string, cat: Catalog, lookupThrows: bool): (r: seq<Effect>)
    ensures r == [] <==> Dispatch(data).None?
    ensures Dispatch(data).Some? ==> Answers(r)
  {
    match Dispatch(data)
    case None => []
    case Some(route) => RouteEffects(route, data, cat, lookupThrows)
  }

  /** `ctx.callbackQuery.data` after handling: only a back handler whose
      lookup found the parent id rewrites it, and always into data that the
      matching forward action takes. */
  function DataAfter(data: string, cat: Catalog, lookupThrows: bool): (r: string)
    ensures lookupThrows ==> r == data
    ensures r != data && Dispatch(data) == Some(BackSylRoute) ==> Dispatch(r) == Some(SyllabusRoute)
    ensures r != data && Dispatch(data) == Some(BackYearRoute) ==> Dispatch(r) == Some(YearRoute)
    ensures Dispatch(data) != Some(BackSylRoute) && Dispatch(data) != Some(BackYearRoute) ==> r == data
  {
    match Dispatch(data)
    case Some(BackSylRoute) =>
      var sylId := ReplaceFirst(data, "back_syl_", "");
      if !lookupThrows && AcademicYearOf(sylId, cat).Some? then
        var yearId := AcademicYearOf(sylId, cat).value;
        TokensReachTheirHandlers(sylId, yearId);
        SylToken(sylId, yearId)
      else data
    case Some(BackYearRoute) =>
      var yearId := ReplaceFirst(data, "back_year_", "");
      if !lookupThrows && BranchOf(yearId, cat).Some? then
        var branchId := BranchOf(yearId, cat).value;
        TokensReachTheirHandlers(yearId, branchId);
        YearToken(yearId, branchId)
      else data
    case _ => data
  }

  /** The part of the Telegraf context the handlers read and write. */
  class CallbackContext {
    var data: string
    var effects: seq<Effect>

    constructor (data: string)
      ensures this.data == data && effects == []
    {
      this.data := data;
      effects := [];
    }
  }

  /** `fileDetailsHandler`, reading the data from the context. */
  method FileDetailsHandler(ctx: CallbackContext, cat: Catalog)
    modifies ctx
    ensures ctx.data == old(ctx.data)
    ensures ctx.effects == old(ctx.effects) + FileDetails(ctx.data, cat)
  {
    ctx.effects := ctx.effects + FileDetails(ctx.data, cat);
  }

  /** `yearSelectionHandler`, reading the data from the context. */
  method YearSelectionHandler(ctx: CallbackContext, cat: Catalog)
    modifies ctx
    ensures ctx.data == old(ctx.data)
    ensures ctx.effects == old(ctx.effects) + YearSelection(ctx.data, cat)
  {
    ctx.effects := ctx.effects + YearSelection(ctx.data, cat);
  }

  /** The `back_syl_` handler: on success it overwrites the data with
      `syl_{S}_y_{Y}` and re-runs `fileDetailsHandler` on the same context. */
  method BackSylHandler(ctx: CallbackContext, cat: Catalog, lookupThrows: bool)
    modifies ctx
    ensures ctx.effects == old(ctx.effects) + BackSyl(old(ctx.data), cat, lookupThrows)
    ensures var sylId := ReplaceFirst(old(ctx.data), "back_syl_", "");
            ctx.data == if !lookupThrows && AcademicYearOf(sylId, cat).Some?
                        then SylToken(sylId, AcademicYearOf(sylId, cat).value) else old(ctx.data)
  {
    var sylId := ReplaceFirst(ctx.data, "back_syl_", "");
    if lookupThrows {
      ctx.effects := ctx.effects + [AnswerCb(ErrorOccurred)];
      return;
    }
    ctx.effects := ctx.effects + [Fetch(SyllabusLevel, sylId)];
    var yearId := AcademicYearOf(sylId, cat);
    if yearId.Some? {
      ctx.data := SylToken(sylId, yearId.value);
      FileDetailsHandler(ctx, cat);
    } else {
      ctx.effects := ctx.effects + NavigationFailed;
    }
  }

  /** The `back_year_` handler: on success it overwrites the data with
      `year_{Y}_branch_{B}` and re-runs `yearSelectionHandler`. */
  method BackYearHandler(ctx: CallbackContext, cat: Catalog, lookupThrows: bool)
    modifies ctx
    ensures ctx.effects == old(ctx.effects) + BackYear(old(ctx.data), cat, lookupThrows)
    ensures var yearId := ReplaceFirst(old(ctx.data), "back_year_", "");
            ctx.data == if !lookupThrows && BranchOf(yearId, cat).Some?
                        then YearToken(yearId, BranchOf(yearId, cat).value) else old(ctx.data)
  {
    var yearId := ReplaceFirst(ctx.data, "back_year_", "");
    if lookupThrows {
      ctx.effects := ctx.effects + [AnswerCb(ErrorOccurred)];
      return;
    }
    ctx.effects := ctx.effects + [Fetch(YearLevel, yearId)];
    var branchId := BranchOf(yearId, cat);
    if branchId.Some? {
      ctx.data := YearToken(yearId, branchId.value);
      YearSelectionHandler(ctx, cat);
    } else {
      ctx.effects := ctx.effects + NavigationFailed;
    }
  }

  /** Telegraf's dispatch of one callback query to the first matching action. */
  method HandleCallback(ctx: CallbackContext, cat: Catalog, lookupThrows: bool)
    modifies ctx
    ensures ctx.effects == old(ctx.effects) + Handled(old(ctx.data), cat, lookupThrows)
    ensures ctx.data == DataAfter(old(ctx.data), cat, lookupThrows)
  {
    match Dispatch(ctx.data)
    case None =>
    case Some(BranchRoute) => ctx.effects := ctx.effects + BranchSelection(ctx.data, cat);
    case Some(YearRoute) => YearSelectionHandler(ctx, cat);
    case Some(SyllabusRoute) => FileDetailsHandler(ctx, cat);
    case Some(SubjectRoute) => ctx.effects := ctx.effects + SubjectDetails(ctx.data, cat);
    case Some(BackToBranchesRoute) => ctx.effects := ctx.effects + BackToBranchesScreen(cat);
    case Some(BackSylRoute) => BackSylHandler(ctx, cat, lookupThrows);
    case Some(BackYearRoute) => BackYearHandler(ctx, cat, lookupThrows);
  }

  // ---------------------------------------------------------------------
  // Back navigation lands on the screen the user came from
  // ---------------------------------------------------------------------

  /** A back token runs its back handler on the id it carries. */
  lemma BackSylTokenRunsBackSyl(id: string, cat: Catalog, lookupThrows: bool)
    ensures Handled(BackSylToken(id), cat, lookupThrows) == BackSyl(BackSylToken(id), cat, lookupThrows)
    ensures DataAfter(BackSylToken(id), cat, lookupThrows)
            == if !lookupThrows && AcademicYearOf(id, cat).Some? then SylToken(id, AcademicYearOf(id, cat).value) else BackSylToken(id)
    ensures ReplaceFirst(BackSylToken(id), "back_syl_", "") == id
  {
    BackSylRoutes(id);
    StripPrefixRoundTrip("back_syl_", id);
    assert Handled(BackSylToken(id), cat, lookupThrows) == RouteEffects(BackSylRoute, BackSylToken(id), cat, lookupThrows);
  }

  lemma BackYearTokenRunsBackYear(id: string, cat: Catalog, lookupThrows: bool)
    ensures Handled(BackYearToken(id), cat, lookupThrows) == BackYear(BackYearToken(id), cat, lookupThrows)
    ensures DataAfter(BackYearToken(id), cat, lookupThrows)
            == if !lookupThrows && BranchOf(id, cat).Some? then YearToken(id, BranchOf(id, cat).value) else BackYearToken(id)
    ensures ReplaceFirst(BackYearToken(id), "back_year_", "") == id
  {
    BackYearRoutes(id);
    StripPrefixRoundTrip("back_year_", id);
    assert Handled(BackYearToken(id), cat, lookupThrows) == RouteEffects(BackYearRoute, BackYearToken(id), cat, lookupThrows);
  }

  /** "Back to Subjects" on the materials of a subject of syllabus `sylId`
      shows that syllabus' subjects again, with the back button of its year,
      when the syllabus names its academic year. */
  lemma BackToSubjectsReturns(sylId: string, cat: Catalog)
    requires Plain(sylId) && !EndsWith(sylId, "y")
    requires AcademicYearOf(sylId, cat).Some? && NoUnderscore(AcademicYearOf(sylId, cat).value)
    ensures var back := MaterialsKeyboard(Some(sylId))[0][0].data;
            var yearId := AcademicYearOf(sylId, cat).value;
            Handled(back, cat, false) == [Fetch(SyllabusLevel, sylId)] + SyllabusScreen(Some(sylId), Some(yearId), cat)
            && DataAfter(back, cat, false) == SylToken(sylId, yearId)
  {
    var yearId := AcademicYearOf(sylId, cat).value;
    var back := BackSylToken(sylId);
    BackSylTokenRunsBackSyl(sylId, cat, false);
    SylTokenRoundTrip(sylId, yearId);
    assert BackSyl(back, cat, false) == [Fetch(SyllabusLevel, sylId)] + FileDetails(SylToken(sylId, yearId), cat);
  }

  lemma BackSylRoutes(id: string)
    ensures Dispatch(BackSylToken(id)) == Some(BackSylRoute)
  {
    TokensReachTheirHandlers(id, id);
  }

  lemma BackYearRoutes(id: string)
    ensures Dispatch(BackYearToken(id)) == Some(BackYearRoute)
  {
    TokensReachTheirHandlers(id, id);
  }

  /** "Back to Patterns" on the subjects of a syllabus of year `yearId`
      shows that year's patterns again, with the back button of its branch,
      when the year names its branch. */
  lemma BackToPatternsReturns(yearId: string, cat: Catalog)
    requires Plain(yearId) && !EndsWith(yearId, "branch")
    requires BranchOf(yearId, cat).Some? && NoUnderscore(BranchOf(yearId, cat).value)
    ensures var back := BackTarget(Some(yearId), BackYearToken);
            var branchId := BranchOf(yearId, cat).value;
            Handled(back, cat, false) == [Fetch(YearLevel, yearId)] + YearScreen(Some(yearId), Some(branchId), cat)
            && DataAfter(back, cat, false) == YearToken(yearId, branchId)
  {
    var branchId := BranchOf(yearId, cat).value;
    var back := BackYearToken(yearId);
    BackYearTokenRunsBackYear(yearId, cat, false);
    YearTokenRoundTrip(yearId, branchId);
    assert YearSelection(YearToken(yearId, branchId), cat) == YearScreen(Some(yearId), Some(branchId), cat);
    assert BackYear(back, cat, false) == [Fetch(YearLevel, yearId)] + YearSelection(YearToken(yearId, branchId), cat);
  }

  /** Without a parent id the back handlers only apologise: no forward
      handler runs, so nothing beyond the lookup is fetched; an exception
      during the lookup only answers "An error occurred". */
  lemma FailedBackNavigationStops(id: string, cat: Catalog)
    ensures AcademicYearOf(id, cat).None? ==> Handled(BackSylToken(id), cat, false) == [Fetch(SyllabusLevel, id)] + NavigationFailed
    ensures BranchOf(id, cat).None? ==> Handled(BackYearToken(id), cat, false) == [Fetch(YearLevel, id)] + NavigationFailed
    ensures Handled(BackSylToken(id), cat, true) == [AnswerCb(ErrorOccurred)]
    ensures Handled(BackYearToken(id), cat, true) == [AnswerCb(ErrorOccurred)]
  {
    BackSylTokenRunsBackSyl(id, cat, false);
    BackSylTokenRunsBackSyl(id, cat, true);
    BackYearTokenRunsBackYear(id, cat, false);
    BackYearTokenRunsBackYear(id, cat, true);
  }
}
