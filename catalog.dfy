/** The catalog as the navigation handlers see it through
    src/helpers/data-helper.js: each getter resolves to the response body
    of the REST API, or to `null` (`[]` for the branch list) when the
    request fails. */
module Catalog {
  import opened Js

  /** What one catalog getter resolves to, as the handlers classify it. */
  datatype Fetched<+T> =
    | Unreachable    // the request failed and the helper returned null or []
    | Unsuccessful   // a body whose `success` is falsy
    | Missing        // `success` holds but `data` is absent
    | Found(data: T)
  {
    /** `!response || !response.success` */
    predicate Failed() { Unreachable? || Unsuccessful? }
  }

  datatype BranchRef = BranchRef(id: string, name: string, code: string)
  datatype YearRef = YearRef(id: string, code: string)
  datatype Branch = Branch(id: string, name: string, code: string, years: seq<YearRef>)

  datatype BranchLink = BranchLink(id: string, university: string)
  datatype SyllabusRef = SyllabusRef(id: string, patternYear: string)
  datatype Year = Year(id: string, name: string, code: string, branch: Option<BranchLink>,
                       syllabuses: seq<SyllabusRef>)

  datatype YearLink = YearLink(id: string, name: string, code: string)
  datatype SubjectRef = SubjectRef(id: string, code: string, name: string)
  datatype Syllabus = Syllabus(id: string, patternYear: string, academicYear: Option<YearLink>,
                               subjects: seq<SubjectRef>)

  datatype FileRef = FileRef(id: string, fileName: string)
  datatype Unit = Unit(unitNumber: int, files: seq<FileRef>)
  /** A subject with its materials; an absent list is the empty list, an
      absent pattern year the empty string. */
  datatype Subject = Subject(id: string, name: string, code: string, patternYear: string,
                             units: seq<Unit>, insem: seq<FileRef>, endsem: seq<FileRef>,
                             decodes: seq<FileRef>, books: seq<FileRef>)

  /** The answers the REST API gives during one update, by id. */
  datatype Catalog = Catalog(
    branches: Fetched<seq<BranchRef>>,
    branch: string -> Fetched<Branch>,
    year: string -> Fetched<Year>,
    syllabus: string -> Fetched<Syllabus>,
    subject: string -> Fetched<Subject>)
}
