/**
 * The state of components/JarvisInterface.tsx that its handlers and effects
 * update, as one object holding the live session it drives. Each handler
 * and each effect is a method; an effect is called when its dependencies
 * have changed, as React runs it after a render.
 */
module TutorInterface {
  import opened Wrappers
  import opened Text
  import opened Turns
  import opened LiveSession
  import opened TutorRules

  datatype AuthMode = SignIn | SignUp

  /** The picked file: its name, its MIME type and its contents as base64 (the data-URL payload). */
  datatype FileInfo = FileInfo(name: string, mimeType: string, base64Data: string)

  /** How an upload ended: the access gate, no file, one of the refusals, or sent. */
  datatype UploadOutcome = Blocked | NoFile | Refused(reason: UploadVerdict) | Sent

  predicate Active(s: ConnectionState) {
    s == Connected || s == Connecting
  }

  class Interface {
    const live: Session
    const keyPickerAvailable: bool     // `window.aistudio` is present
    var activeSubjectId: string
    var hasApiKey: bool
    var inputText: string
    var pendingMessage: Option<string>
    var showUpgradeModal: bool
    var showAuthModal: bool
    var activePlan: Option<string>
    var user: Option<UserProfile>
    var authMode: AuthMode
    var history: seq<HistoryItem>
    var lastHistoryMsgId: Option<string>
    var hasStarted: bool

    ghost predicate Valid()
      reads this, live
    {
      live.Valid()
    }

    /**
     * The first render and the mount effect: subject "universal", the API key
     * as the key picker reports it (always present without a picker), the
     * stored user (or the sign-in dialog) and the stored history.
     */
    constructor (live: Session, keyPickerAvailable: bool, keySelected: bool,
                 storedUser: Option<UserProfile>, storedHistory: seq<HistoryItem>)
      requires live.Valid()
      ensures Valid() && this.live == live && this.keyPickerAvailable == keyPickerAvailable
      ensures activeSubjectId == "universal" && inputText == "" && pendingMessage == None
      ensures hasApiKey == (!keyPickerAvailable || keySelected)
      ensures user == storedUser && history == storedHistory
      ensures activePlan == (if storedUser.Some? then Some(storedUser.value.plan) else None)
      ensures showAuthModal == storedUser.None? && !showUpgradeModal && authMode == SignIn
      ensures lastHistoryMsgId == None && !hasStarted
    {
      this.live := live;
      this.keyPickerAvailable := keyPickerAvailable;
      activeSubjectId := "universal";
      hasApiKey := !keyPickerAvailable || keySelected;
      inputText := "";
      pendingMessage := None;
      showUpgradeModal := false;
      user := storedUser;
      activePlan := if storedUser.Some? then Some(storedUser.value.plan) else None;
      showAuthModal := storedUser.None?;
      authMode := SignIn;
      history := storedHistory;
      lastHistoryMsgId := None;
      hasStarted := false;
    }

    /** `checkAccess` at time `now`: the verdict, and the dialog it opens when it refuses. */
    method CheckAccess(now: int) returns (ok: bool)
      modifies this`showAuthModal, this`showUpgradeModal
      ensures ok <==> Access(user, now) == Granted
      ensures showAuthModal == (old(showAuthModal) || Access(user, now) == NeedsSignIn)
      ensures showUpgradeModal == (old(showUpgradeModal) || Access(user, now) == TrialExpired)
    {
      if user.None? {
        showAuthModal := true;
        return false;
      }
      if user.value.plan == "trial" && user.value.trialStartDate.TrialStartMs? {
        var startDate := user.value.trialStartDate.ms;
        var currentDate := now;
        var thirtyDaysInMs := 30 * 24 * 60 * 60 * 1000;
        if currentDate - startDate > thirtyDaysInMs {
          showUpgradeModal := true;
          return false;
        }
      }
      return true;
    }

    /** A click on a subject card. */
    method SelectSubject(id: string)
      modifies this`activeSubjectId
      ensures activeSubjectId == id
    {
      activeSubjectId := id;
    }

    /** The startup-reset effect: reaching `disconnected` clears `hasStarted`. */
    method ResetStartupEffect()
      modifies this`hasStarted
      ensures hasStarted == (old(hasStarted) && live.connectionState != Disconnected)
    {
      if live.connectionState == Disconnected {
        hasStarted := false;
      }
    }

    /**
     * The subject effect, run when the connection state or the subject
     * changes: while connected, the first run of a session sends the greeting
     * and sets `hasStarted`; later runs send the mode-switch message.
     */
    method SubjectEffect()
      modifies this`hasStarted, live`outbox
      ensures var name := ActiveSubject(activeSubjectId).name;
        var text := if old(hasStarted) then ModeSwitchMessage(name) else GreetingMessage(name);
        if live.connectionState == Connected then
          && hasStarted
          && live.outbox == old(live.outbox) + (if live.hasSession then [ClientTurn(text)] else [])
        else
          hasStarted == old(hasStarted) && live.outbox == old(live.outbox)
    {
      if live.connectionState == Connected {
        var activeSubject := ActiveSubject(activeSubjectId);
        if hasStarted {
          live.SendHiddenMessage(ModeSwitchMessage(activeSubject.name));
        }
        if !hasStarted {
          live.SendHiddenMessage(GreetingMessage(activeSubject.name));
          hasStarted := true;
        }
      }
    }

    /**
     * The history effect, run when the messages change: when the last message
     * is a user message not yet recorded, its topic is recorded at the front of
     * the history and its id remembered; otherwise nothing changes, so running
     * it again on the same messages adds nothing.
     */
    method HistoryEffect(now: nat, dateLabel: string)
      modifies this`history, this`lastHistoryMsgId
      ensures var ms := live.messages;
        if |ms| > 0 && ms[|ms| - 1].role == User && old(lastHistoryMsgId) != Some(ms[|ms| - 1].id) then
          && lastHistoryMsgId == Some(ms[|ms| - 1].id)
          && history == [HistoryItem(now, ActiveSubject(activeSubjectId).name, Topic(ms[|ms| - 1].text), dateLabel, "Chat")]
                        + old(history)
        else
          history == old(history) && lastHistoryMsgId == old(lastHistoryMsgId)
    {
      if |live.messages| == 0 {
        return;
      }
      var lastMsg := live.messages[|live.messages| - 1];
      if lastMsg.role == User && Some(lastMsg.id) != lastHistoryMsgId {
        lastHistoryMsgId := Some(lastMsg.id);
        var newItem := HistoryItem(now, ActiveSubject(activeSubjectId).name, Topic(lastMsg.text), dateLabel, "Chat");
        history := [newItem] + history;
      }
    }

    /** The pending-message effect: once connected, a stored message is sent once and cleared. */
    method PendingEffect(now: nat)
      modifies this`pendingMessage, live`messages, live`outbox
      ensures if live.connectionState == Connected && old(pendingMessage).Some? && old(pendingMessage).value != "" then
          var text := old(pendingMessage).value;
          && pendingMessage == None
          && live.messages == old(live.messages) + (if live.hasSession then [UserMessage(text, now)] else [])
          && live.outbox == old(live.outbox) + (if live.hasSession then [ClientTurn(text)] else [])
        else
          pendingMessage == old(pendingMessage) && unchanged(live)
    {
      if live.connectionState == Connected && pendingMessage.Some? && pendingMessage.value != "" {
        live.SendTextMessage(pendingMessage.value, now);
        pendingMessage := None;
      }
    }

    /**
     * What `handleToggleConnection` does to the session: nothing when access
     * is refused; a disconnect when connected or connecting; otherwise a
     * connect, unless the key picker is shown and the user picks no key.
     */
    twostate predicate Toggled(now: int, keyChosen: bool, micGranted: bool)
      reads this, live
    {
      var granted := Access(old(user), now) == Granted;
      var active := Active(old(live.connectionState));
      var askKey := !old(hasApiKey) && keyPickerAvailable;
      var connects := granted && !active && (!askKey || keyChosen);
      && (granted && active ==>
            && live.connectionState == Disconnected && !live.hasSession && live.Released()
            && live.hasOutputNode == old(live.hasOutputNode))
      && (connects && micGranted ==>
            && live.connectionState == Connecting && live.hasSession && live.hasStream
            && live.hasInputContext && live.hasOutputContext && live.hasOutputNode
            && live.activeSources == old(live.activeSources) && live.nextStartTime == old(live.nextStartTime)
            && live.hasProcessor == old(live.hasProcessor) && live.hasSourceNode == old(live.hasSourceNode))
      && (connects && !micGranted ==>
            && live.connectionState == Error && live.Released() && live.hasOutputNode
            && live.hasSession == old(live.hasSession))
      && (!granted || (!active && askKey && !keyChosen) ==> unchanged(live))
      && hasApiKey == (old(hasApiKey) || (granted && !active && askKey && keyChosen))
      && live.messages == old(live.messages) && live.Buffer() == old(live.Buffer())
      && live.nextSourceId == old(live.nextSourceId)
      && live.outbox == old(live.outbox) + (if granted && active && old(live.hasSession) then [CloseChannel] else [])
    }

    /**
     * `handleToggleConnection` at time `now`; `keyChosen` is the outcome of
     * the key picker and `micGranted` that of the microphone request.
     */
    method ToggleConnection(now: int, keyChosen: bool, micGranted: bool)
      requires Valid()
      modifies this`showAuthModal, this`showUpgradeModal, this`hasApiKey, live
      ensures Valid()
      ensures Toggled(now, keyChosen, micGranted)
      ensures showAuthModal == (old(showAuthModal) || Access(user, now) == NeedsSignIn)
      ensures showUpgradeModal == (old(showUpgradeModal) || Access(user, now) == TrialExpired)
    {
      var ok := CheckAccess(now);
      if !ok {
        return;
      }
      if live.connectionState == Connected || live.connectionState == Connecting {
        live.Disconnect();
      } else {
        if !hasApiKey && keyPickerAvailable {
          if keyChosen {
            hasApiKey := true;
            live.Connect(micGranted);
          }
        } else {
          live.Connect(micGranted);
        }
      }
    }

    /**
     * `handleSendText`: blank input does nothing; a refused access only opens
     * its dialog; when connected the text is sent as typed and the input
     * cleared; otherwise the text becomes pending, the input is cleared and
     * the connection is toggled.
     */
    method SendText(now: nat, keyChosen: bool, micGranted: bool)
      requires Valid()
      modifies this`inputText, this`pendingMessage, this`showAuthModal, this`showUpgradeModal, this`hasApiKey, live
      ensures Valid()
      ensures AllWhitespace(old(inputText)) ==> unchanged(this) && unchanged(live)
      ensures !AllWhitespace(old(inputText)) && Access(old(user), now) != Granted ==>
        && unchanged(live) && inputText == old(inputText) && pendingMessage == old(pendingMessage)
        && hasApiKey == old(hasApiKey)
        && showAuthModal == (old(showAuthModal) || old(user).None?)
        && showUpgradeModal == (old(showUpgradeModal) || old(user).Some?)
      ensures !AllWhitespace(old(inputText)) && Access(old(user), now) == Granted ==>
        && showAuthModal == old(showAuthModal) && showUpgradeModal == old(showUpgradeModal)
        && if old(live.connectionState) == Connected then
          && inputText == "" && pendingMessage == old(pendingMessage) && hasApiKey == old(hasApiKey)
          && live.OnlyTrafficChanged()
          && live.messages == old(live.messages) + (if live.hasSession then [UserMessage(old(inputText), now)] else [])
          && live.outbox == old(live.outbox) + (if live.hasSession then [ClientTurn(old(inputText))] else [])
        else
          && inputText == "" && pendingMessage == Some(old(inputText))
          && Toggled(now, keyChosen, micGranted)
      ensures user == old(user) && history == old(history) && activeSubjectId == old(activeSubjectId)
    {
      if Trim(inputText) == "" {
        return;
      }
      var ok := CheckAccess(now);
      if !ok {
        return;
      }
      if live.connectionState == Connected {
        live.SendTextMessage(inputText, now);
        inputText := "";
      } else {
        pendingMessage := Some(inputText);
        inputText := "";
        ToggleConnection(now, keyChosen, micGranted);
      }
    }

    /**
     * `handleFileUpload` at time `now`: after the access gate and the file
     * checks, an accepted image is sent as media and then announced with a
     * text message at time `sentAt` (the end of the short delay).
     */
    method FileUpload(file: Option<FileInfo>, now: int, sentAt: nat) returns (outcome: UploadOutcome)
      modifies this`showAuthModal, this`showUpgradeModal, live`outbox, live`messages
      ensures showAuthModal == (old(showAuthModal) || Access(user, now) == NeedsSignIn)
      ensures showUpgradeModal == (old(showUpgradeModal) || Access(user, now) == TrialExpired)
      ensures Access(user, now) != Granted ==> outcome == Blocked && unchanged(live)
      ensures Access(user, now) == Granted && file.None? ==> outcome == NoFile && unchanged(live)
      ensures Access(user, now) == Granted && file.Some? ==>
        var f := file.value;
        var verdict := UploadCheck(live.connectionState == Connected, f.mimeType);
        if verdict == Accepted then
          && outcome == Sent
          && live.outbox == old(live.outbox)
               + (if live.hasSession then [RealtimeMedia(f.mimeType, f.base64Data), ClientTurn(UploadPrompt(f.name))] else [])
          && live.messages == old(live.messages)
               + (if live.hasSession then [UserMessage(UploadPrompt(f.name), sentAt)] else [])
        else
          outcome == Refused(verdict) && unchanged(live)
    {
      var ok := CheckAccess(now);
      if !ok {
        return Blocked;
      }
      if file.None? {
        return NoFile;
      }
      var f := file.value;
      var verdict := UploadCheck(live.connectionState == Connected, f.mimeType);
      if verdict != Accepted {
        return Refused(verdict);
      }
      live.SendRealtimeInput(f.base64Data, f.mimeType);
      live.SendTextMessage(UploadPrompt(f.name), sentAt);
      return Sent;
    }

    /**
     * `updateUserPlan`: without a user nothing changes; otherwise only the
     * plan changes, the plan shown follows it and the upgrade dialog closes.
     */
    method UpdateUserPlan(newPlan: string)
      modifies this`user, this`activePlan, this`showUpgradeModal
      ensures old(user).None? ==> unchanged(this)
      ensures old(user).Some? ==>
        && user.Some? && user.value.plan == newPlan
        && user.value.name == old(user).value.name && user.value.email == old(user).value.email
        && user.value.avatar == old(user).value.avatar
        && user.value.trialStartDate == old(user).value.trialStartDate
        && activePlan == Some(newPlan) && !showUpgradeModal
    {
      if user.None? {
        return;
      }
      var updatedUser := user.value.(plan := newPlan);
      user := Some(updatedUser);
      activePlan := Some(newPlan);
      showUpgradeModal := false;
    }

    /**
     * `handlePayment`: without a user the sign-up dialog opens; the free plan
     * only closes the upgrade dialog; a paid plan that the checkout confirms
     * (`paid`) is written to the user as the plan's NAME, not its id.
     */
    method Payment(plan: PricingPlan, paid: bool)
      modifies this`showUpgradeModal, this`authMode, this`showAuthModal, this`user, this`activePlan
      ensures old(user).None? ==>
        && !showUpgradeModal && authMode == SignUp && showAuthModal
        && user == old(user) && activePlan == old(activePlan)
      ensures old(user).Some? && plan.price == 0 ==>
        && !showUpgradeModal && user == old(user) && activePlan == old(activePlan)
        && authMode == old(authMode) && showAuthModal == old(showAuthModal)
      ensures old(user).Some? && plan.price > 0 && paid ==>
        && user == Some(old(user).value.(plan := plan.name)) && activePlan == Some(plan.name)
        && !showUpgradeModal && authMode == old(authMode) && showAuthModal == old(showAuthModal)
      ensures old(user).Some? && plan.price > 0 && !paid ==> unchanged(this)
    {
      if user.None? {
        showUpgradeModal := false;
        authMode := SignUp;
        showAuthModal := true;
        return;
      }
      if plan.price == 0 {
        showUpgradeModal := false;
        return;
      }
      if paid {
        UpdateUserPlan(plan.name);
      }
    }
  }

  /**
   * A session that ends in `error` keeps `hasStarted`, since only
   * `disconnected` resets it, so the session opened by the next toggle gets
   * the mode-switch message instead of the greeting.
   */
  method ReconnectAfterError(ui: Interface, now: int)
    requires ui.Valid() && ui.live.connectionState == Error && ui.hasStarted
    requires ui.hasApiKey && Access(ui.user, now) == Granted
    modifies ui, ui.live
  {
    ui.ResetStartupEffect();
    assert ui.hasStarted;
    ui.ToggleConnection(now, true, true);
    assert ui.live.connectionState == Connecting && ui.live.hasSession;
    ui.live.OnOpen();
    ui.SubjectEffect();
    var name := ActiveSubject(ui.activeSubjectId).name;
    assert ui.live.outbox[|ui.live.outbox| - 1] == ClientTurn(ModeSwitchMessage(name));
  }
}
