/** The competition-creation page: its form state, the validator that
    reports the first failing check, and submission. */
module CreateBattlePage {
  import opened Common

  /** The characters `String.prototype.trim` removes: ECMAScript's
      WhiteSpace and LineTerminator code points. */
  predicate IsJsWhitespace(c: char) {
    c == '\t' || c == '\n' || c == '\U{000B}' || c == '\U{000C}' || c == '\r' || c == ' '
    || c == '\U{00A0}' || c == '\U{1680}' || ('\U{2000}' <= c <= '\U{200A}')
    || c == '\U{2028}' || c == '\U{2029}' || c == '\U{202F}' || c == '\U{205F}'
    || c == '\U{3000}' || c == '\U{FEFF}'
  }

  /** `trimStart`: drops the leading whitespace. */
  function TrimStart(s: string): (t: string)
    ensures t == "" || !IsJsWhitespace(t[0])
  {
    if s != "" && IsJsWhitespace(s[0]) then TrimStart(s[1..]) else s
  }

  /** `trimEnd`: drops the trailing whitespace. */
  function TrimEnd(s: string): (t: string)
    ensures t == "" || !IsJsWhitespace(t[|t| - 1])
  {
    if s != "" && IsJsWhitespace(s[|s| - 1]) then TrimEnd(s[..|s| - 1]) else s
  }

  /** `s.trim()`: neither end of the result is whitespace. */
  function Trim(s: string): (t: string)
    ensures t == "" || (!IsJsWhitespace(t[0]) && !IsJsWhitespace(t[|t| - 1]))
  {
    TrimEndSpec(TrimStart(s));
    TrimEnd(TrimStart(s))
  }

  /** TrimStart keeps a suffix, removes only whitespace, and stops at a
      non-whitespace character. */
  lemma {:induction false} TrimStartSpec(s: string)
    ensures |TrimStart(s)| <= |s| && TrimStart(s) == s[|s| - |TrimStart(s)|..]
    ensures forall i :: 0 <= i < |s| - |TrimStart(s)| ==> IsJsWhitespace(s[i])
    ensures TrimStart(s) != "" ==> !IsJsWhitespace(TrimStart(s)[0])
  {
    if s != "" && IsJsWhitespace(s[0]) {
      var t := s[1..];
      TrimStartSpec(t);
      var r := TrimStart(t);
      assert TrimStart(s) == r;
      assert t[|t| - |r|..] == s[|s| - |r|..];
      forall i | 0 <= i < |s| - |r|
        ensures IsJsWhitespace(s[i])
      {
        if i > 0 {
          assert s[i] == t[i - 1];
        }
      }
    }
  }

  /** TrimEnd keeps a prefix, removes only whitespace, and stops at a
      non-whitespace character. */
  lemma {:induction false} TrimEndSpec(s: string)
    ensures |TrimEnd(s)| <= |s| && TrimEnd(s) == s[..|TrimEnd(s)|]
    ensures forall i :: |TrimEnd(s)| <= i < |s| ==> IsJsWhitespace(s[i])
    ensures TrimEnd(s) != "" ==> !IsJsWhitespace(TrimEnd(s)[|TrimEnd(s)| - 1])
  {
    if s != "" && IsJsWhitespace(s[|s| - 1]) {
      var t := s[..|s| - 1];
      TrimEndSpec(t);
      var r := TrimEnd(t);
      assert TrimEnd(s) == r;
      assert t[..|r|] == s[..|r|];
      forall i | |r| <= i < |s|
        ensures IsJsWhitespace(s[i])
      {
        if i < |s| - 1 {
          assert s[i] == t[i];
        }
      }
    }
  }

  /** A text field is blank when every character of it is whitespace. */
  predicate Blank(s: string) {
    forall i :: 0 <= i < |s| ==> IsJsWhitespace(s[i])
  }

  /** `!s.trim()` holds exactly for blank strings. */
  lemma TrimEmptyIffBlank(s: string)
    ensures Trim(s) == "" <==> Blank(s)
  {
    var t := TrimStart(s);
    TrimStartSpec(s);
    TrimEndSpec(t);
    if Trim(s) != "" {
      var r := Trim(s);
      assert r == t[..|r|] && t == s[|s| - |t|..];
      assert r[0] == s[|s| - |t|];
    }
  }

  /** A `datetime-local` field as `new Date` reads it: empty, not a valid
      date (NaN), or a timestamp. */
  datatype TimeInput = NoTime | BadTime | At(stamp: int)

  /** `parseInt` of the number field: an integer, or NaN for blank or
      non-numeric text. */
  datatype ParticipantsInput = Count(n: int) | NotANumber

  datatype FormData = FormData(
    title: string,
    description: string,
    theme: string,
    startTime: TimeInput,
    endTime: TimeInput,
    maxParticipants: ParticipantsInput)

  /** The initial form, and the form after a successful creation. */
  const EmptyForm: FormData := FormData("", "", "", NoTime, NoTime, Count(50))

  /** The validator's checks, in the order it runs them. */
  datatype ValidationError =
    | TitleRequired | DescriptionRequired | ThemeRequired
    | StartRequired | EndRequired | EndNotAfterStart | ParticipantsOutOfRange

  function Message(e: ValidationError): string {
    match e
    case TitleRequired => "Title is required"
    case DescriptionRequired => "Description is required"
    case ThemeRequired => "Theme is required"
    case StartRequired => "Start time is required"
    case EndRequired => "End time is required"
    case EndNotAfterStart => "End time must be after start time"
    case ParticipantsOutOfRange => "Max participants must be between 1 and 1000"
  }

  function Rank(e: ValidationError): nat {
    match e
    case TitleRequired => 0
    case DescriptionRequired => 1
    case ThemeRequired => 2
    case StartRequired => 3
    case EndRequired => 4
    case EndNotAfterStart => 5
    case ParticipantsOutOfRange => 6
  }

  /** Whether the check that reports `e` passes on `f`, each stated on its
      own. Comparisons involving NaN are false, so an unparseable date
      passes the ordering check and NaN passes the range check. */
  predicate CheckPasses(f: FormData, e: ValidationError) {
    match e
    case TitleRequired => Trim(f.title) != ""
    case DescriptionRequired => Trim(f.description) != ""
    case ThemeRequired => Trim(f.theme) != ""
    case StartRequired => f.startTime != NoTime
    case EndRequired => f.endTime != NoTime
    case EndNotAfterStart =>
      !(f.startTime.At? && f.endTime.At? && f.startTime.stamp >= f.endTime.stamp)
    case ParticipantsOutOfRange =>
      !(f.maxParticipants.Count? && (f.maxParticipants.n < 1 || f.maxParticipants.n > 1000))
  }

  /** Every check passes. */
  predicate AllChecksPass(f: FormData) {
    && CheckPasses(f, TitleRequired) && CheckPasses(f, DescriptionRequired)
    && CheckPasses(f, ThemeRequired) && CheckPasses(f, StartRequired)
    && CheckPasses(f, EndRequired) && CheckPasses(f, EndNotAfterStart)
    && CheckPasses(f, ParticipantsOutOfRange)
  }

  /** The checks ranked below `k` all pass. */
  predicate PassesBefore(f: FormData, k: nat) {
    && (k > 0 ==> CheckPasses(f, TitleRequired))
    && (k > 1 ==> CheckPasses(f, DescriptionRequired))
    && (k > 2 ==> CheckPasses(f, ThemeRequired))
    && (k > 3 ==> CheckPasses(f, StartRequired))
    && (k > 4 ==> CheckPasses(f, EndRequired))
    && (k > 5 ==> CheckPasses(f, EndNotAfterStart))
  }

  /** `validateForm`: None when the form is valid, otherwise the error of
      the first check, in order, that fails. */
  function ValidateForm(f: FormData): (r: Option<ValidationError>)
    ensures r.None? <==> AllChecksPass(f)
    ensures r.Some? ==> !CheckPasses(f, r.value)
    ensures r.Some? ==> PassesBefore(f, Rank(r.value))
  {
    if Trim(f.title) == "" then Some(TitleRequired)
    else if Trim(f.description) == "" then Some(DescriptionRequired)
    else if Trim(f.theme) == "" then Some(ThemeRequired)
    else if f.startTime == NoTime then Some(StartRequired)
    else if f.endTime == NoTime then Some(EndRequired)
    else if f.startTime.At? && f.endTime.At? && f.startTime.stamp >= f.endTime.stamp then
      Some(EndNotAfterStart)
    else if f.maxParticipants.Count? && (f.maxParticipants.n < 1 || f.maxParticipants.n > 1000) then
      Some(ParticipantsOutOfRange)
    else None
  }

  /** The reported error is the first failure: every check that runs
      before it passes. */
  lemma ReportedErrorIsFirstFailure(f: FormData, e: ValidationError)
    requires ValidateForm(f).Some? && Rank(e) < Rank(ValidateForm(f).value)
    ensures CheckPasses(f, e)
  {
    match e
    case TitleRequired =>
    case DescriptionRequired =>
    case ThemeRequired =>
    case StartRequired =>
    case EndRequired =>
    case EndNotAfterStart =>
    case ParticipantsOutOfRange =>
  }

  /** The form is valid exactly when the three texts are not blank, both
      times are filled in, the start is before the end whenever both
      parse, and the count is within 1..1000 whenever it is a number. */
  lemma ValidIffWellFormed(f: FormData)
    ensures ValidateForm(f).None? <==>
      !Blank(f.title) && !Blank(f.description) && !Blank(f.theme)
      && f.startTime != NoTime && f.endTime != NoTime
      && (f.startTime.At? && f.endTime.At? ==> f.startTime.stamp < f.endTime.stamp)
      && (f.maxParticipants.Count? ==> 1 <= f.maxParticipants.n <= 1000)
  {
    TrimEmptyIffBlank(f.title);
    TrimEmptyIffBlank(f.description);
    TrimEmptyIffBlank(f.theme);
  }

  /** For parseable dates and counts this is the expected rule: start
      before end and 1..1000 participants. */
  lemma ValidIffWellFormedParsed(f: FormData)
    requires f.startTime.At? && f.endTime.At? && f.maxParticipants.Count?
    ensures ValidateForm(f).None? <==>
      !Blank(f.title) && !Blank(f.description) && !Blank(f.theme)
      && f.startTime.stamp < f.endTime.stamp
      && 1 <= f.maxParticipants.n <= 1000
  {
    ValidIffWellFormed(f);
  }

  /** An end equal to the start is rejected with the ordering message. */
  lemma EqualTimesRejected(f: FormData)
    requires !Blank(f.title) && !Blank(f.description) && !Blank(f.theme)
    requires f.startTime.At? && f.endTime == f.startTime
    ensures ValidateForm(f) == Some(EndNotAfterStart)
    ensures Message(ValidateForm(f).value) == "End time must be after start time"
  {
    TrimEmptyIffBlank(f.title);
    TrimEmptyIffBlank(f.description);
    TrimEmptyIffBlank(f.theme);
  }

  /** The participant bounds are inclusive: 1 and 1000 pass, 0 and 1001
      fail. */
  lemma ParticipantBoundsInclusive(f: FormData)
    requires !Blank(f.title) && !Blank(f.description) && !Blank(f.theme)
    requires f.startTime.At? && f.endTime.At? && f.startTime.stamp < f.endTime.stamp
    ensures ValidateForm(f.(maxParticipants := Count(1))) == None
    ensures ValidateForm(f.(maxParticipants := Count(1000))) == None
    ensures ValidateForm(f.(maxParticipants := Count(0))) == Some(ParticipantsOutOfRange)
    ensures ValidateForm(f.(maxParticipants := Count(1001))) == Some(ParticipantsOutOfRange)
  {
    TrimEmptyIffBlank(f.title);
    TrimEmptyIffBlank(f.description);
    TrimEmptyIffBlank(f.theme);
  }

  /** A comparison with an unparseable date is false, so whatever the
      count, the ordering error is never reported when either time does
      not parse. */
  lemma UnparseableTimeSkipsOrdering(f: FormData)
    requires f.startTime == BadTime || f.endTime == BadTime
    ensures ValidateForm(f) != Some(EndNotAfterStart)
  {
  }

  /** A comparison with NaN is false, so whatever the times, the bounds
      error is never reported for a count that is not a number. */
  lemma NaNCountSkipsBounds(f: FormData)
    requires f.maxParticipants == NotANumber
    ensures ValidateForm(f) != Some(ParticipantsOutOfRange)
  {
  }

  /** Together: an otherwise complete form with an unparseable start and a
      count that is not a number is accepted. */
  lemma UnparseableInputsPassComparisons(f: FormData)
    requires !Blank(f.title) && !Blank(f.description) && !Blank(f.theme)
    requires f.startTime == BadTime && f.endTime != NoTime
    requires f.maxParticipants == NotANumber
    ensures ValidateForm(f) == None
  {
    TrimEmptyIffBlank(f.title);
    TrimEmptyIffBlank(f.description);
    TrimEmptyIffBlank(f.theme);
  }

  /** `handleInputChange(field, value)`: one field and its new value. */
  datatype FieldChange =
    | SetTitle(text: string)
    | SetDescription(text: string)
    | SetTheme(text: string)
    | SetStartTime(time: TimeInput)
    | SetEndTime(time: TimeInput)
    | SetMaxParticipants(count: ParticipantsInput)

  /** The form after a change: the named field takes the value, the other
      five keep theirs. */
  function ApplyChange(f: FormData, c: FieldChange): (g: FormData)
    ensures c.SetTitle? ==> g == f.(title := c.text)
    ensures c.SetDescription? ==> g == f.(description := c.text)
    ensures c.SetTheme? ==> g == f.(theme := c.text)
    ensures c.SetStartTime? ==> g == f.(startTime := c.time)
    ensures c.SetEndTime? ==> g == f.(endTime := c.time)
    ensures c.SetMaxParticipants? ==> g == f.(maxParticipants := c.count)
  {
    match c
    case SetTitle(t) => f.(title := t)
    case SetDescription(t) => f.(description := t)
    case SetTheme(t) => f.(theme := t)
    case SetStartTime(t) => f.(startTime := t)
    case SetEndTime(t) => f.(endTime := t)
    case SetMaxParticipants(n) => f.(maxParticipants := n)
  }

  /** The row sent to `battles`: the form's fields, the creator and the
      initial status. */
  datatype BattleInsert = BattleInsert(form: FormData, createdBy: string, status: string)

  const DefaultCreateError: string := "Failed to create competition."

  /** The toast `handleSubmit` shows, if any; an insert error goes to the
      inline error instead. */
  datatype SubmitNotice = NoSubmitNotice | CreateAuthRequired | Created

  /** The `CreateBattle` component's state. */
  class CreateBattleForm {
    var formData: FormData
    var loading: bool
    var error: Option<string>

    constructor ()
      ensures formData == EmptyForm && !loading && error == None
    {
      formData := EmptyForm;
      loading := false;
      error := None;
    }

    method HandleInputChange(c: FieldChange)
      modifies this
      ensures formData == ApplyChange(old(formData), c)
      ensures loading == old(loading) && error == old(error)
    {
      formData := ApplyChange(formData, c);
    }

    /** The part of `handleSubmit` that runs at the click: the error is
        cleared and the form validated. An invalid form shows its first
        error; a valid one puts the button into "Creating..." and is
        returned, as the handler's closure holds it, for the insert. */
    method BeginSubmit() returns (submitted: Option<FormData>)
      requires !loading
      modifies this
      ensures formData == old(formData)
      ensures submitted.Some? <==> ValidateForm(old(formData)).None?
      ensures submitted.Some? ==> submitted.value == old(formData) && loading && error == None
      ensures submitted.None? ==>
        !loading && error == Some(Message(ValidateForm(old(formData)).value))
    {
      error := None;
      submitted := None;
      var invalid := ValidateForm(formData);
      if invalid.Some? {
        error := Some(Message(invalid.value));
        return;
      }
      loading := true;
      submitted := Some(formData);
    }

    /** The rest of `handleSubmit`, once `auth.getUser()` (`userId`) and
        the insert (`insert`) have answered. The row sent is built from
        the form captured at the click; the inputs stayed editable in the
        meantime, so a success resets whatever was typed since, and a
        failure keeps it. */
    method FinishSubmit(captured: FormData, userId: Option<string>, insert: Response<()>)
      returns (sent: Option<BattleInsert>, notice: SubmitNotice)
      modifies this
      ensures !loading
      ensures notice == CreateAuthRequired <==> userId.None?
      ensures notice == Created <==> sent.Some? && insert.Ok?
      ensures sent.Some? <==> userId.Some?
      ensures sent.Some? ==> sent.value == BattleInsert(captured, userId.value, "upcoming")
      ensures userId.None? ==> error == old(error) && formData == old(formData)
      ensures sent.Some? && insert.Ok? ==> error == old(error) && formData == EmptyForm
      ensures sent.Some? && insert.Err? ==>
        formData == old(formData)
        && error == Some(if insert.message != "" then insert.message else DefaultCreateError)
    {
      sent := None;
      notice := NoSubmitNotice;
      if userId.None? {
        notice := CreateAuthRequired;
        loading := false;
        return;
      }
      sent := Some(BattleInsert(captured, userId.value, "upcoming"));
      if insert.Err? {
        error := Some(if insert.message != "" then insert.message else DefaultCreateError);
      } else {
        notice := Created;
        formData := EmptyForm;
      }
      loading := false;
    }

    /** `handleSubmit` with nothing typed while the request is in flight.
        The submit button is disabled while a submission is in flight. */
    method HandleSubmit(userId: Option<string>, insert: Response<()>) returns (sent: Option<BattleInsert>, notice: SubmitNotice)
      requires !loading
      modifies this
      ensures !loading
      ensures notice == CreateAuthRequired <==> ValidateForm(old(formData)).None? && userId.None?
      ensures notice == Created <==> sent.Some? && insert.Ok?
      ensures sent.Some? <==> ValidateForm(old(formData)).None? && userId.Some?
      ensures sent.Some? ==> sent.value == BattleInsert(old(formData), userId.value, "upcoming")
      ensures ValidateForm(old(formData)).Some? ==>
        error == Some(Message(ValidateForm(old(formData)).value)) && formData == old(formData)
      ensures ValidateForm(old(formData)).None? && userId.None? ==>
        error == None && formData == old(formData)
      ensures sent.Some? && insert.Ok? ==> error == None && formData == EmptyForm
      ensures sent.Some? && insert.Err? ==>
        formData == old(formData)
        && error == Some(if insert.message != "" then insert.message else DefaultCreateError)
    {
      var submitted := BeginSubmit();
      if submitted.None? {
        sent, notice := None, NoSubmitNotice;
        return;
      }
      sent, notice := FinishSubmit(submitted.value, userId, insert);
    }
  }

  /** An edit typed while a valid submission is in flight: the button
      shows "Creating...", the row sent is the form as it was at the click,
      and the edit is wiped by the reset on success but kept on failure. */
  method EditWhileCreating(page: CreateBattleForm, c: FieldChange, userId: string, insert: Response<()>)
    returns (creating: bool, sent: Option<BattleInsert>)
    requires !page.loading && ValidateForm(page.formData).None?
    modifies page
    ensures creating
    ensures sent == Some(BattleInsert(old(page.formData), userId, "upcoming"))
    ensures insert.Ok? ==> page.formData == EmptyForm
    ensures insert.Err? ==> page.formData == ApplyChange(old(page.formData), c)
    ensures !page.loading
  {
    var submitted := page.BeginSubmit();
    creating := page.loading;
    page.HandleInputChange(c);
    var notice;
    sent, notice := page.FinishSubmit(submitted.value, Some(userId), insert);
  }
}
