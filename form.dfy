/**
 * The seven text fields of the time-entry popup, the row they are
 * submitted as, the per-field validators that decorate the entry widgets,
 * and the checks the Submit button itself performs.
 *
 * strconv.ParseFloat is not modelled: every member that needs "parses as
 * a number" takes it as the parameter `numeric`.
 */
module Form {
  import opened Common
  import opened DateLayout

  /** The texts of the seven entry widgets. */
  datatype Entry = Entry(
    date: string,
    hours: string,
    description: string,
    project: string,
    branch: string,
    commitStart: string,
    commitEnd: string)

  /** The widgets a user can type into. */
  datatype Field = DateField | HoursField | DescriptionField | ProjectField
                 | BranchField | CommitStartField | CommitEndField

  /** The entry after the user has replaced one widget's text. */
  function WithText(e: Entry, f: Field, text: string): (r: Entry)
    ensures FieldText(r, f) == text
  {
    match f
    case DateField => e.(date := text)
    case HoursField => e.(hours := text)
    case DescriptionField => e.(description := text)
    case ProjectField => e.(project := text)
    case BranchField => e.(branch := text)
    case CommitStartField => e.(commitStart := text)
    case CommitEndField => e.(commitEnd := text)
  }

  function FieldText(e: Entry, f: Field): string {
    match f
    case DateField => e.date
    case HoursField => e.hours
    case DescriptionField => e.description
    case ProjectField => e.project
    case BranchField => e.branch
    case CommitStartField => e.commitStart
    case CommitEndField => e.commitEnd
  }

  /** Typing into one widget leaves the other six texts alone. */
  lemma WithTextKeepsOthers(e: Entry, f: Field, g: Field, text: string)
    requires g != f
    ensures FieldText(WithText(e, f, text), g) == FieldText(e, g)
  {
  }

  /** The field order of a submitted row. */
  const Columns: seq<Field> :=
    [DateField, HoursField, DescriptionField, ProjectField, BranchField, CommitStartField, CommitEndField]

  /** The seven cell values appended to the sheet, one per column A..G. */
  function Row(e: Entry): (r: seq<string>)
    ensures |r| == |Columns| == 7
    ensures forall i :: 0 <= i < 7 ==> r[i] == FieldText(e, Columns[i])
  {
    [e.date, e.hours, e.description, e.project, e.branch, e.commitStart, e.commitEnd]
  }

  /** Reads a seven-cell row back as an entry. */
  function FromRow(r: seq<string>): Entry
    requires |r| == 7
  {
    Entry(r[0], r[1], r[2], r[3], r[4], r[5], r[6])
  }

  /** A row determines its entry and an entry its row. */
  lemma RowRoundTrip(e: Entry, r: seq<string>)
    requires |r| == 7
    ensures FromRow(Row(e)) == e
    ensures Row(FromRow(r)) == r
  {
  }

  lemma RowInjective(e1: Entry, e2: Entry)
    requires Row(e1) == Row(e2)
    ensures e1 == e2
  {
    RowRoundTrip(e1, Row(e1));
    RowRoundTrip(e2, Row(e2));
  }

  /** The inline validation errors of the entry widgets. */
  datatype FieldError = Required | InvalidDate | NotANumber

  /** The date widget's validator: required, then time.Parse with "01/02/2006". */
  function DateValidator(text: string): (err: Option<FieldError>)
    ensures err == None <==> text != "" && ParseDate(text).Some?
    ensures text == "" ==> err == Some(Required)
  {
    if text == "" then Some(Required)
    else if ParseDate(text).None? then Some(InvalidDate)
    else None
  }

  /** The hours widget's validator: required, then strconv.ParseFloat. */
  function HoursValidator(text: string, numeric: string -> bool): (err: Option<FieldError>)
    ensures err == None <==> text != "" && numeric(text)
    ensures text == "" ==> err == Some(Required)
  {
    if text == "" then Some(Required)
    else if !numeric(text) then Some(NotANumber)
    else None
  }

  /** The validator of the description and of the project widget. */
  function RequiredValidator(text: string): (err: Option<FieldError>)
    ensures err == None <==> text != ""
  {
    if text == "" then Some(Required) else None
  }

  /** Accepted date texts are exactly the formatted calendar days with a four-digit year. */
  lemma DateValidatorExact(text: string)
    ensures DateValidator(text) == None <==>
            exists d :: IsCalendarDay(d) && d.year < 10000 && text == Format(d)
  {
    ParseDateExact(text);
  }

  lemma DateValidatorAcceptsExample()
    ensures DateValidator("01/02/2025") == None
  {
    FormatThenParse(Date(2025, 1, 2));
    FormatExample();
  }

  /** February 29 of a leap year is accepted. */
  lemma DateValidatorAcceptsLeapDay()
    ensures DateValidator("02/29/2024") == None
  {
    var d := Date(2024, 2, 29);
    assert Format(d) == "02/29/2024";
    FormatThenParse(d);
  }

  /** February 29 of a common year is rejected. */
  lemma DateValidatorRejectsCommonLeapDay()
    ensures DateValidator("02/29/2023") == Some(InvalidDate)
  {
    var s := "02/29/2023";
    ValueOfFixed(2, 2);
    ValueOfFixed(29, 2);
    ValueOfFixed(2023, 4);
    assert s[0..2] == Fixed(2, 2) && s[3..5] == Fixed(29, 2) && s[6..10] == Fixed(2023, 4);
  }

  lemma DateValidatorRejectsExamples()
    ensures DateValidator("13/40/2024") == Some(InvalidDate)
    ensures DateValidator("1/02/2025") == Some(InvalidDate)
    ensures DateValidator("01/02/20255") == Some(InvalidDate)
    ensures DateValidator("") == Some(Required)
  {
    var t := "13/40/2024";
    ValueOfFixed(13, 2);
    assert t[0..2] == Fixed(13, 2);
  }

  /** Why the Submit button refuses to append. */
  datatype SubmitError = InvalidHours | MissingRequired

  /**
   * The Submit button's own checks, in their order: hours must parse as a
   * number, then hours, description and project must be non-empty.  The
   * date, branch and commit texts are not looked at.
   */
  function SubmitCheck(e: Entry, numeric: string -> bool): (err: Option<SubmitError>)
    ensures err == None <==> numeric(e.hours) && e.hours != "" && e.description != "" && e.project != ""
    ensures err == Some(InvalidHours) <==> !numeric(e.hours)
  {
    if !numeric(e.hours) then Some(InvalidHours)
    else if e.hours == "" || e.description == "" || e.project == "" then Some(MissingRequired)
    else None
  }

  /** Submit accepts exactly what the hours, description and project validators accept. */
  lemma SubmitCheckMatchesValidators(e: Entry, numeric: string -> bool)
    ensures SubmitCheck(e, numeric) == None <==>
            HoursValidator(e.hours, numeric) == None
            && RequiredValidator(e.description) == None
            && RequiredValidator(e.project) == None
  {
  }

  /** The outcome of Submit's checks does not depend on the date, branch or commit texts. */
  lemma SubmitCheckIgnoresOptionalAndDate(e: Entry, date: string, branch: string, start: string, end: string,
                                          numeric: string -> bool)
    ensures SubmitCheck(e.(date := date, branch := branch, commitStart := start, commitEnd := end), numeric)
            == SubmitCheck(e, numeric)
  {
  }

  /** An entry whose date the date validator rejects still passes Submit's checks. */
  lemma SubmitDoesNotCheckDate(e: Entry, numeric: string -> bool)
    requires SubmitCheck(e, numeric) == None
    ensures DateValidator("13/40/2024") == Some(InvalidDate)
    ensures SubmitCheck(e.(date := "13/40/2024"), numeric) == None
  {
    DateValidatorRejectsExamples();
  }
}
