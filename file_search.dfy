/** The five catalog screens of src/handlers/file-search-handlers.js and
    the `/search` command. Each handler is a function from the callback
    data and the catalog to the effects it performs on the update, in
    order: answering the callback query, fetching from the catalog, and
    sending or editing a message with an inline keyboard. */
module FileSearch {
  import opened Js
  import opened Catalog
  import opened Tokens
  import opened Materials

  /** The visible text of a button, by kind; emoji and wording abstracted. */
  datatype Label =
    | BranchButton(name: string, code: string)
    | YearButton(code: string)
    | PatternButton(patternYear: string)
    | SubjectButton(code: string, name: string)
    | BackToBranchesButton
    | BackToYearsButton
    | BackButton
    | BackToPatternsButton
    | BackToSubjectsButton
    | StartOverButton

  datatype Button = Button(text: Label, data: string)
  type Row = seq<Button>

  /** The text of `answerCbQuery`; `Silent` is the call without text. */
  datatype Notice =
    | Silent | LoadingSubjects | LoadingMaterials | InvalidData | ErrorOccurred | CouldNotNavigateBack

  /** Message bodies, with the catalog values they interpolate. */
  datatype Msg =
    | FailedBranches | NoBranches | SearchFiles
    | FailedBranchDetails | BranchNotFound | NoYears(branchName: string)
    | BranchHeader(name: string, code: string)
    | FailedYearDetails | YearNotFound | NoSyllabuses(yearName: string)
    | YearHeader(yearName: string, university: string)
    | FailedSubjects | SyllabusNotFound | NoSubjects(patternYear: string)
    | SubjectsHeader(academicYear: Option<YearLink>, patternYear: string)
    | FailedMaterials | SubjectNotFound | MaterialsView(lines: seq<Line>)
    | UseSearch

  datatype Level = BranchList | BranchLevel | YearLevel | SyllabusLevel | SubjectLevel

  datatype Effect =
    | AnswerCb(notice: Notice)
    | Fetch(level: Level, id: string)
    | Reply(msg: Msg, keyboard: seq<Row>)
    | Edit(msg: Msg, keyboard: seq<Row>)

  predicate Fetches(r: seq<Effect>)
  {
    exists e :: e in r && e.Fetch?
  }

  // ---------------------------------------------------------------------
  // Keyboard rows: one button per child, in catalog order
  // ---------------------------------------------------------------------

  function BranchRows(bs: seq<BranchRef>): seq<Row>
  {
    seq(|bs|, i requires 0 <= i < |bs| => [Button(BranchButton(bs[i].name, bs[i].code), BranchToken(bs[i].id))])
  }

  function YearRows(ys: seq<YearRef>, branchId: string): seq<Row>
  {
    seq(|ys|, i requires 0 <= i < |ys| => [Button(YearButton(ys[i].code), YearToken(ys[i].id, branchId))])
  }

  function SyllabusRows(ss: seq<SyllabusRef>, yearId: string): seq<Row>
  {
    seq(|ss|, i requires 0 <= i < |ss| => [Button(PatternButton(ss[i].patternYear), SylToken(ss[i].id, yearId))])
  }

  function SubjectRows(us: seq<SubjectRef>, sylId: string): seq<Row>
  {
    seq(|us|, i requires 0 <= i < |us| => [Button(SubjectButton(us[i].code, us[i].name), SubToken(us[i].id, sylId))])
  }

  /** `response.data || []` for the branch list. */
  function BranchesOf(f: Fetched<seq<BranchRef>>): seq<BranchRef>
  {
    if f.Found? then f.data else []
  }

  /** The back target of a screen: the parent's token when the parent id
      was decoded (a capture is never the empty string, so it is truthy),
      otherwise `back_to_branches`. */
  function BackTarget(parent: Option<string>, token: string -> string): string
  {
    if parent.Some? then token(parent.value) else BackToBranches
  }

  // ---------------------------------------------------------------------
  // The screens
  // ---------------------------------------------------------------------

  /** The branch list shown by both `/search` and `back_to_branches`: a
      failure or empty-list reply, or one button per branch with no back row. */
  function BranchListOutcome(cat: Catalog, edit: bool): (r: Effect)
    ensures cat.branches.Failed() ==> r == Reply(FailedBranches, [])
    ensures !cat.branches.Failed() && BranchesOf(cat.branches) == [] ==> r == Reply(NoBranches, [])
    ensures !cat.branches.Failed() && BranchesOf(cat.branches) != [] ==>
              r.Edit? == edit && r.Reply? == !edit && r.msg == SearchFiles
              && |r.keyboard| == |BranchesOf(cat.branches)|
              && forall i :: 0 <= i < |r.keyboard| ==>
                   r.keyboard[i] == [Button(BranchButton(cat.branches.data[i].name, cat.branches.data[i].code),
                                            BranchToken(cat.branches.data[i].id))]
  {
    if cat.branches.Failed() then Reply(FailedBranches, [])
    else if BranchesOf(cat.branches) == [] then Reply(NoBranches, [])
    else if edit then Edit(SearchFiles, BranchRows(cat.branches.data))
    else Reply(SearchFiles, BranchRows(cat.branches.data))
  }

  /** `searchCommandHandler`: fetch the branch list and reply with it. */
  function SearchCommand(cat: Catalog): (r: seq<Effect>)
    ensures r == [Fetch(BranchList, ""), BranchListOutcome(cat, false)]
    ensures r[1].Reply?
  {
    [Fetch(BranchList, ""), BranchListOutcome(cat, false)]
  }

  /** `backToBranchesHandler`: answer, fetch the branch list, and edit the
      message into it (failures still get a new reply). */
  function BackToBranchesScreen(cat: Catalog): (r: seq<Effect>)
    ensures r == [AnswerCb(Silent), Fetch(BranchList, ""), BranchListOutcome(cat, true)]
    ensures r[2].Edit? <==> !cat.branches.Failed() && BranchesOf(cat.branches) != []
  {
    [AnswerCb(Silent), Fetch(BranchList, ""), BranchListOutcome(cat, true)]
  }

  /** What `branchSelectionHandler` shows for branch `branchId`. */
  function BranchOutcome(branchId: string, cat: Catalog): (r: Effect)
    ensures cat.branch(branchId).Failed() ==> r == Reply(FailedBranchDetails, [])
    ensures cat.branch(branchId).Missing? ==> r == Reply(BranchNotFound, [])
    ensures cat.branch(branchId).Found? && cat.branch(branchId).data.years == [] ==>
              r == Reply(NoYears(cat.branch(branchId).data.name), [])
    ensures cat.branch(branchId).Found? && cat.branch(branchId).data.years != [] ==>
              var ys := cat.branch(branchId).data.years;
              r.Edit? && |r.keyboard| == |ys| + 1
              && (forall i :: 0 <= i < |ys| ==> r.keyboard[i] == [Button(YearButton(ys[i].code), YearToken(ys[i].id, branchId))])
              && r.keyboard[|ys|] == [Button(BackToBranchesButton, BackToBranches)]
  {
    match cat.branch(branchId)
    case Unreachable => Reply(FailedBranchDetails, [])
    case Unsuccessful => Reply(FailedBranchDetails, [])
    case Missing => Reply(BranchNotFound, [])
    case Found(b) =>
      if |b.years| == 0 then Reply(NoYears(b.name), [])
      else Edit(BranchHeader(b.name, b.code), YearRows(b.years, branchId) + [[Button(BackToBranchesButton, BackToBranches)]])
  }

  /** `branchSelectionHandler`: the id is the data with its first `branch_`
      removed. The callback is answered before the one fetch, and the screen
      shown is the outcome of the branch fetched, which for data that starts
      with the trigger is the rest of the data. */
  function BranchSelection(data: string, cat: Catalog): (r: seq<Effect>)
    ensures |r| == 3 && r[0] == AnswerCb(Silent)
    ensures r[1].Fetch? && r[1].level == BranchLevel && r[2] == BranchOutcome(r[1].id, cat)
    ensures StartsWith(data, "branch_") ==> r[1].id == data[|"branch_"|..]
  {
    var branchId := ReplaceFirst(data, "branch_", "");
    [AnswerCb(Silent), Fetch(BranchLevel, branchId), BranchOutcome(branchId, cat)]
  }

  /** What `yearSelectionHandler` shows for year `yearId`. */
  function YearOutcome(yearId: string, branchId: Option<string>, cat: Catalog): (r: Effect)
    ensures cat.year(yearId).Failed() ==> r == Reply(FailedYearDetails, [])
    ensures cat.year(yearId).Missing? ==> r == Reply(YearNotFound, [])
    ensures cat.year(yearId).Found? && cat.year(yearId).data.syllabuses == [] ==>
              var y := cat.year(yearId).data;
              r == Reply(NoSyllabuses(OrElse(y.name, y.code)), [])
    ensures cat.year(yearId).Found? && cat.year(yearId).data.syllabuses != [] ==>
              var ss := cat.year(yearId).data.syllabuses;
              r.Edit? && |r.keyboard| == |ss| + 1
              && (forall i :: 0 <= i < |ss| ==> r.keyboard[i] == [Button(PatternButton(ss[i].patternYear), SylToken(ss[i].id, yearId))])
              && r.keyboard[|ss|] == [Button(BackToYearsButton, BackTarget(branchId, BranchToken))]
  {
    match cat.year(yearId)
    case Unreachable => Reply(FailedYearDetails, [])
    case Unsuccessful => Reply(FailedYearDetails, [])
    case Missing => Reply(YearNotFound, [])
    case Found(y) =>
      if |y.syllabuses| == 0 then Reply(NoSyllabuses(OrElse(y.name, y.code)), [])
      else
        var university := if y.branch.Some? then OrElse(y.branch.value.university, "University") else "University";
        Edit(YearHeader(OrElse(y.name, y.code), university),
             SyllabusRows(y.syllabuses, yearId) + [[Button(BackToYearsButton, BackTarget(branchId, BranchToken))]])
  }

  /** `yearSelectionHandler` on the decoded ids: without a year id only
      "Invalid data" is answered and nothing is fetched. */
  function YearScreen(yearId: Option<string>, branchId: Option<string>, cat: Catalog): (r: seq<Effect>)
    ensures yearId.None? <==> r == [AnswerCb(InvalidData)]
    ensures Fetches(r) <==> yearId.Some?
    ensures yearId.Some? ==> r == [AnswerCb(Silent), Fetch(YearLevel, yearId.value), YearOutcome(yearId.value, branchId, cat)]
  {
    if yearId.None? then [AnswerCb(InvalidData)]
    else
      var r := [AnswerCb(Silent), Fetch(YearLevel, yearId.value), YearOutcome(yearId.value, branchId, cat)];
      assert r[1] in r;
      r
  }

  /** `yearSelectionHandler`: the callback is always answered first; data
      without a `year_` id fetches nothing, and otherwise the year fetched is
      the decoded one and the screen shown is its outcome, with the back
      button built from the decoded branch id. */
  function YearSelection(data: string, cat: Catalog): (r: seq<Effect>)
    ensures r != [] && r[0].AnswerCb?
    ensures Fetches(r) <==> Capture("year_", data).Some?
    ensures Fetches(r) ==> |r| == 3 && r[1] == Fetch(YearLevel, Capture("year_", data).value)
                           && r[2] == YearOutcome(r[1].id, Capture("branch_", data), cat)
  {
    YearScreen(Capture("year_", data), Capture("branch_", data), cat)
  }


  /** What `fileDetailsHandler` shows for syllabus `sylId`. */
  function SyllabusOutcome(sylId: string, yearId: Option<string>, cat: Catalog): (r: Effect)
    ensures cat.syllabus(sylId).Failed() ==> r == Reply(FailedSubjects, [])
    ensures cat.syllabus(sylId).Missing? ==> r == Reply(SyllabusNotFound, [])
    ensures cat.syllabus(sylId).Found? && cat.syllabus(sylId).data.subjects == [] ==>
              r == Edit(NoSubjects(cat.syllabus(sylId).data.patternYear), [[Button(BackButton, BackTarget(yearId, BackYearToken))]])
    ensures cat.syllabus(sylId).Found? && cat.syllabus(sylId).data.subjects != [] ==>
              var us := cat.syllabus(sylId).data.subjects;
              r.Edit? && |r.keyboard| == |us| + 1
              && (forall i :: 0 <= i < |us| ==> r.keyboard[i] == [Button(SubjectButton(us[i].code, us[i].name), SubToken(us[i].id, sylId))])
              && r.keyboard[|us|] == [Button(BackToPatternsButton, BackTarget(yearId, BackYearToken))]
  {
    match cat.syllabus(sylId)
    case Unreachable => Reply(FailedSubjects, [])
    case Unsuccessful => Reply(FailedSubjects, [])
    case Missing => Reply(SyllabusNotFound, [])
    case Found(s) =>
      if |s.subjects| == 0 then Edit(NoSubjects(s.patternYear), [[Button(BackButton, BackTarget(yearId, BackYearToken))]])
      else Edit(SubjectsHeader(s.academicYear, s.patternYear),
                SubjectRows(s.subjects, sylId) + [[Button(BackToPatternsButton, BackTarget(yearId, BackYearToken))]])
  }

  /** `fileDetailsHandler` on the decoded ids. */
  function SyllabusScreen(sylId: Option<string>, yearId: Option<string>, cat: Catalog): (r: seq<Effect>)
    ensures sylId.None? <==> r == [AnswerCb(InvalidData)]
    ensures Fetches(r) <==> sylId.Some?
    ensures sylId.Some? ==> r == [AnswerCb(LoadingSubjects), Fetch(SyllabusLevel, sylId.value), SyllabusOutcome(sylId.value, yearId, cat)]
  {
    if sylId.None? then [AnswerCb(InvalidData)]
    else
      var r := [AnswerCb(LoadingSubjects), Fetch(SyllabusLevel, sylId.value), SyllabusOutcome(sylId.value, yearId, cat)];
      assert r[1] in r;
      r
  }

  /** `fileDetailsHandler`: answered first; a fetch exactly when a `syl_`
      id decodes, and then the outcome of that syllabus, with the back button
      built from the decoded `y_` id. */
  function FileDetails(data: string, cat: Catalog): (r: seq<Effect>)
    ensures r != [] && r[0].AnswerCb?
    ensures Fetches(r) <==> Capture("syl_", data).Some?
    ensures Fetches(r) ==> |r| == 3 && r[1] == Fetch(SyllabusLevel, Capture("syl_", data).value)
                           && r[2] == SyllabusOutcome(r[1].id, Capture("y_", data), cat)
  {
    SyllabusScreen(Capture("syl_", data), Capture("y_", data), cat)
  }

  /** The materials keyboard: always two rows, back to the subjects and start over. */
  function MaterialsKeyboard(sylId: Option<string>): (kb: seq<Row>)
    ensures |kb| == 2 && |kb[0]| == 1 && |kb[1]| == 1
    ensures kb[0][0].text == BackToSubjectsButton && kb[1][0].text == StartOverButton
    ensures kb[1][0].data == BackToBranches
    ensures sylId.Some? ==> kb[0][0].data == BackSylToken(sylId.value)
    ensures sylId.None? ==> kb[0][0].data == BackToBranches
  {
    [[Button(BackToSubjectsButton, BackTarget(sylId, BackSylToken))], [Button(StartOverButton, BackToBranches)]]
  }

  /** What `subjectDetailsHandler` shows for subject `subjectId`. */
  function SubjectOutcome(subjectId: string, sylId: Option<string>, cat: Catalog): (r: Effect)
    ensures cat.subject(subjectId).Failed() ==> r == Reply(FailedMaterials, [])
    ensures cat.subject(subjectId).Missing? ==> r == Reply(SubjectNotFound, [])
    ensures cat.subject(subjectId).Found? ==>
              r == Edit(MaterialsView(MaterialsMessage(cat.subject(subjectId).data)), MaterialsKeyboard(sylId))
  {
    match cat.subject(subjectId)
    case Unreachable => Reply(FailedMaterials, [])
    case Unsuccessful => Reply(FailedMaterials, [])
    case Missing => Reply(SubjectNotFound, [])
    case Found(s) => Edit(MaterialsView(MaterialsMessage(s)), MaterialsKeyboard(sylId))
  }

  /** `subjectDetailsHandler` on the decoded ids. */
  function SubjectScreen(subjectId: Option<string>, sylId: Option<string>, cat: Catalog): (r: seq<Effect>)
    ensures subjectId.None? <==> r == [AnswerCb(InvalidData)]
    ensures Fetches(r) <==> subjectId.Some?
    ensures subjectId.Some? ==> r == [AnswerCb(LoadingMaterials), Fetch(SubjectLevel, subjectId.value), SubjectOutcome(subjectId.value, sylId, cat)]
  {
    if subjectId.None? then [AnswerCb(InvalidData)]
    else
      var r := [AnswerCb(LoadingMaterials), Fetch(SubjectLevel, subjectId.value), SubjectOutcome(subjectId.value, sylId, cat)];
      assert r[1] in r;
      r
  }

  /** `subjectDetailsHandler`: answered first; a fetch exactly when a `sub_`
      id decodes, and then the materials of that subject, with the back
      button built from the decoded `s_` id. */
  function SubjectDetails(data: string, cat: Catalog): (r: seq<Effect>)
    ensures r != [] && r[0].AnswerCb?
    ensures Fetches(r) <==> Capture("sub_", data).Some?
    ensures Fetches(r) ==> |r| == 3 && r[1] == Fetch(SubjectLevel, Capture("sub_", data).value)
                           && r[2] == SubjectOutcome(r[1].id, Capture("s_", data), cat)
  {
    SubjectScreen(Capture("sub_", data), Capture("s_", data), cat)
  }

  // ---------------------------------------------------------------------
  // Navigation: what a button of one screen shows on the next
  // ---------------------------------------------------------------------

  /** The side conditions of the two-id round trips. */
  predicate Plain(id: string)
  {
    id != [] && NoUnderscore(id)
  }

  /** A branch button leads to that branch's screen. */
  lemma BranchButtonOpensBranch(cat: Catalog, i: nat)
    requires !cat.branches.Failed() && i < |BranchesOf(cat.branches)|
    ensures var kb := BranchListOutcome(cat, false).keyboard;
            i < |kb| && BranchSelection(kb[i][0].data, cat)[2] == BranchOutcome(cat.branches.data[i].id, cat)
  {
    StripPrefixRoundTrip("branch_", cat.branches.data[i].id);
  }

  /** A year button of branch `branchId` opens that year, and the year
      screen's back button shows that branch's screen again. */
  lemma YearButtonOpensYear(branchId: string, cat: Catalog, i: nat)
    requires cat.branch(branchId).Found? && i < |cat.branch(branchId).data.years|
    requires Plain(branchId)
    requires var y := cat.branch(branchId).data.years[i].id;
             Plain(y) && !EndsWith(y, "branch")
    ensures var y := cat.branch(branchId).data.years[i].id;
            var kb := BranchOutcome(branchId, cat).keyboard;
            YearSelection(kb[i][0].data, cat) == YearScreen(Some(y), Some(branchId), cat)
    ensures var y := cat.branch(branchId).data.years[i].id;
            var out := YearOutcome(y, Some(branchId), cat);
            out.Edit? ==> BranchSelection(out.keyboard[|out.keyboard| - 1][0].data, cat)[2] == BranchOutcome(branchId, cat)
  {
    var y := cat.branch(branchId).data.years[i].id;
    YearTokenRoundTrip(y, branchId);
    StripPrefixRoundTrip("branch_", branchId);
  }

  /** A pattern button of year `yearId` opens that syllabus, and the
      syllabus screen's back button carries the year. */
  lemma PatternButtonOpensSyllabus(yearId: string, parent: Option<string>, cat: Catalog, i: nat)
    requires cat.year(yearId).Found? && i < |cat.year(yearId).data.syllabuses|
    requires Plain(yearId)
    requires var s := cat.year(yearId).data.syllabuses[i].id;
             Plain(s) && !EndsWith(s, "y")
    ensures var s := cat.year(yearId).data.syllabuses[i].id;
            var kb: seq<Row> := YearOutcome(yearId, parent, cat).keyboard;
            FileDetails(kb[i][0].data, cat) == SyllabusScreen(Some(s), Some(yearId), cat)
    ensures var s := cat.year(yearId).data.syllabuses[i].id;
            var out := SyllabusOutcome(s, Some(yearId), cat);
            out.Edit? ==> out.keyboard[|out.keyboard| - 1][0].data == BackYearToken(yearId)
  {
    var s := cat.year(yearId).data.syllabuses[i].id;
    var kb: seq<Row> := YearOutcome(yearId, parent, cat).keyboard;
    assert kb[i][0].data == SylToken(s, yearId);
    SylTokenRoundTrip(s, yearId);
    assert FileDetails(SylToken(s, yearId), cat) == SyllabusScreen(Some(s), Some(yearId), cat);
    assert BackTarget(Some(yearId), BackYearToken) == BackYearToken(yearId);
  }

  /** A subject button of syllabus `sylId` opens that subject. */
  lemma SubjectButtonOpensSubject(sylId: string, parent: Option<string>, cat: Catalog, i: nat)
    requires cat.syllabus(sylId).Found? && i < |cat.syllabus(sylId).data.subjects|
    requires Plain(sylId)
    requires var u := cat.syllabus(sylId).data.subjects[i].id;
             Plain(u) && !EndsWith(u, "s")
    ensures var u := cat.syllabus(sylId).data.subjects[i].id;
            var kb: seq<Row> := SyllabusOutcome(sylId, parent, cat).keyboard;
            SubjectDetails(kb[i][0].data, cat) == SubjectScreen(Some(u), Some(sylId), cat)
  {
    var u := cat.syllabus(sylId).data.subjects[i].id;
    var kb: seq<Row> := SyllabusOutcome(sylId, parent, cat).keyboard;
    assert kb[i][0].data == SubToken(u, sylId);
    SubTokenRoundTrip(u, sylId);
    assert SubjectDetails(SubToken(u, sylId), cat) == SubjectScreen(Some(u), Some(sylId), cat);
  }
}
