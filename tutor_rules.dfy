/**
 * The decision rules of components/JarvisInterface.tsx that are plain
 * functions of records: the subject table and its lookup, the trial gate,
 * history topics, the upload type check, the hidden steering texts and the
 * pricing table.
 */
module TutorRules {
  import opened Wrappers
  import opened Text

  /** A subject mode; its styling, icon and system prompt text are not modelled. */
  datatype SubjectMode = SubjectMode(id: string, name: string, description: string)

  /** `SUBJECT_MODES`, in their display order; the first one is the fallback. */
  const SubjectModes: seq<SubjectMode> := [
    SubjectMode("universal", "Universal", "General Tutor & News"),
    SubjectMode("math", "Math", "Step-by-Step Solving"),
    SubjectMode("science", "Science", "Biology & Physics"),
    SubjectMode("history", "History", "Storytelling"),
    SubjectMode("coding", "Coding", "Logic & Code")
  ]

  /** `Array.prototype.find` on the mode table: the first mode whose id is `id`. */
  function FindMode(modes: seq<SubjectMode>, id: string): (r: Option<nat>)
    ensures r.Some? ==> r.value < |modes| && modes[r.value].id == id
    ensures r.Some? ==> forall j :: 0 <= j < r.value ==> modes[j].id != id
    ensures r.None? ==> forall j :: 0 <= j < |modes| ==> modes[j].id != id
    decreases |modes|
  {
    if modes == [] then None
    else if modes[0].id == id then Some(0)
    else
      match FindMode(modes[1..], id)
      case None => None
      case Some(k) => Some(k + 1)
  }

  /** The active subject: the mode with the selected id, or the universal mode when none has it. */
  function ActiveSubject(id: string): (m: SubjectMode)
    ensures m in SubjectModes
    ensures (exists j :: 0 <= j < |SubjectModes| && SubjectModes[j].id == id) ==> m.id == id
    ensures (forall j :: 0 <= j < |SubjectModes| ==> SubjectModes[j].id != id) ==> m == SubjectModes[0]
  {
    match FindMode(SubjectModes, id)
    case Some(k) => SubjectModes[k]
    case None => SubjectModes[0]
  }

  /** Looking up each mode's own id finds that mode, since the ids are distinct. */
  lemma ActiveSubjectOfMode(k: nat)
    requires k < |SubjectModes|
    ensures ActiveSubject(SubjectModes[k].id) == SubjectModes[k]
  {
    var m := ActiveSubject(SubjectModes[k].id);
    assert m.id == SubjectModes[k].id;
    assert forall i, j :: 0 <= i < j < |SubjectModes| ==> SubjectModes[i].id != SubjectModes[j].id by {
      assert SubjectModes[0].id[0] == 'u' && SubjectModes[1].id[0] == 'm' && SubjectModes[2].id[0] == 's';
      assert SubjectModes[3].id[0] == 'h' && SubjectModes[4].id[0] == 'c';
    }
  }

  /**
   * The stored trial start, `user.trialStartDate`, as `new Date(...)` reads
   * it: absent (or the empty string), a time in milliseconds, or a string
   * that does not parse (`NaN`).
   */
  datatype TrialStart = NoTrialStart | TrialStartMs(ms: int) | InvalidTrialStart

  /** `UserProfile`; `plan` holds whatever string was last written to it. */
  datatype UserProfile = UserProfile(
    name: string,
    email: string,
    avatar: Option<string>,
    trialStartDate: TrialStart,
    plan: string)

  /** `30 * 24 * 60 * 60 * 1000`: thirty days in milliseconds. */
  const TrialLengthMs: int := 30 * 24 * 60 * 60 * 1000

  datatype AccessVerdict = Granted | NeedsSignIn | TrialExpired

  /**
   * The verdict of `checkAccess` at time `now` (milliseconds): no user means
   * sign in first; a user on the "trial" plan with a parsed start date more
   * than thirty days back (strictly) is blocked; everyone else, including
   * every other plan and every trial without a usable date, is let in.
   */
  function Access(user: Option<UserProfile>, now: int): (v: AccessVerdict)
    ensures v == NeedsSignIn <==> user.None?
    ensures v == TrialExpired <==>
      && user.Some? && user.value.plan == "trial"
      && user.value.trialStartDate.TrialStartMs?
      && now - user.value.trialStartDate.ms > 2592000000
    ensures v == Granted <==> user.Some? && !(v == TrialExpired)
  {
    if user.None? then NeedsSignIn
    else if user.value.plan == "trial" && user.value.trialStartDate.TrialStartMs?
            && now - user.value.trialStartDate.ms > TrialLengthMs then TrialExpired
    else Granted
  }

  /** Exactly thirty days after the start the trial is still open; one millisecond later it is closed. */
  lemma TrialBoundary(u: UserProfile, start: int)
    requires u.plan == "trial" && u.trialStartDate == TrialStartMs(start)
    ensures Access(Some(u), start + TrialLengthMs) == Granted
    ensures Access(Some(u), start + TrialLengthMs + 1) == TrialExpired
  {
  }

  /** An expired trial stays expired as time goes on. */
  lemma ExpiryPersists(user: Option<UserProfile>, now: int, later: int)
    requires Access(user, now) == TrialExpired && now <= later
    ensures Access(user, later) == TrialExpired
  {
  }

  /** A history item (`HistoryItem`): id from `Date.now()`, the subject's name, the topic and labels. */
  datatype HistoryItem = HistoryItem(id: nat, subject: string, topic: string, date: string, duration: string)

  /**
   * The topic recorded for a user message: the text itself when it has at
   * most 60 characters, else its first 60 characters and "...".
   */
  function Topic(text: string): (r: string)
    ensures |r| <= 63
    ensures |text| <= 60 ==> r == text
    ensures |text| > 60 ==> |r| == 63 && r[..60] == text[..60] && r[60..] == "..."
  {
    if |text| > 60 then text[..60] + "..." else text
  }

  /** Why an upload is refused, or that it goes through. */
  datatype UploadVerdict = NotConnected | PdfRejected | NotAnImage | Accepted

  /**
   * The checks `handleFileUpload` makes, in order: a live connection, then
   * not `application/pdf`, then a type starting with `image/`.
   */
  function UploadCheck(connected: bool, mimeType: string): (v: UploadVerdict)
    ensures v == Accepted <==> connected && mimeType != "application/pdf" && StartsWith(mimeType, "image/")
    ensures v == NotConnected <==> !connected
    ensures v == PdfRejected <==> connected && mimeType == "application/pdf"
  {
    if !connected then NotConnected
    else if mimeType == "application/pdf" then PdfRejected
    else if !StartsWith(mimeType, "image/") then NotAnImage
    else Accepted
  }

  const GreetingHead := "[SYSTEM: The session has just started. You are now the "
  const GreetingTail :=
    " teacher. Immediately introduce yourself enthusiastically in Hinglish and ask the student what they want to learn today. Keep it short and engaging.]"
  const SwitchHead := "[SYSTEM: The user has switched to "

  /** The hidden message that makes the tutor introduce itself at the start of a session. */
  function GreetingMessage(subjectName: string): string {
    GreetingHead + subjectName + GreetingTail
  }

  /** The hidden message that tells the tutor the subject changed. */
  function ModeSwitchMessage(subjectName: string): string {
    SwitchHead + subjectName + " mode. Please adopt the " + subjectName
    + " persona immediately and help with " + subjectName + " related topics.]"
  }

  lemma IndexInHead(x: string, y: string, i: nat)
    requires i < |x|
    ensures |x + y| > i && (x + y)[i] == x[i]
  {
  }

  /** The tutor can always tell the two steering messages apart: they differ at index 13. */
  lemma GreetingIsNotModeSwitch(a: string, b: string)
    ensures GreetingMessage(a) != ModeSwitchMessage(b)
  {
    assert GreetingHead[13] == 's' && SwitchHead[13] == 'u';
    IndexInHead(GreetingHead, a, 13);
    IndexInHead(GreetingHead + a, GreetingTail, 13);
    var w := SwitchHead + b + " mode. Please adopt the " + b + " persona immediately and help with " + b;
    IndexInHead(SwitchHead, b, 13);
    IndexInHead(SwitchHead + b, " mode. Please adopt the ", 13);
    IndexInHead(SwitchHead + b + " mode. Please adopt the ", b, 13);
    IndexInHead(SwitchHead + b + " mode. Please adopt the " + b, " persona immediately and help with ", 13);
    IndexInHead(SwitchHead + b + " mode. Please adopt the " + b + " persona immediately and help with ", b, 13);
    IndexInHead(w, " related topics.]", 13);
    assert GreetingMessage(a)[13] == 's';
    assert ModeSwitchMessage(b)[13] == 'u';
  }

  /** The text sent after an image upload. */
  function UploadPrompt(fileName: string): string {
    "I have uploaded an image: " + fileName + ". Please analyze it and explain what you see."
  }

  /** A pricing plan (`PRICING_PLANS`); labels and feature lists are not modelled. */
  datatype PricingPlan = PricingPlan(id: string, name: string, price: nat)

  const PricingPlans: seq<PricingPlan> := [
    PricingPlan("trial", "1 Month Free", 0),
    PricingPlan("monthly", "Monthly Pro", 59),
    PricingPlan("yearly", "Yearly Pro", 559)
  ]

  /** The trial is the only free plan; every other plan has a positive price. */
  lemma FreePlanIsTrial()
    ensures forall i :: 0 <= i < |PricingPlans| ==>
      (PricingPlans[i].price == 0 <==> PricingPlans[i].id == "trial")
  {
  }
}
