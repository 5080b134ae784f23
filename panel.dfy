/**
 * The WhatsApp control panel page (whatsapp-panel/public/script.js): the
 * connection flag the server's events drive, and the checks the test-message
 * form runs before it asks the server to send.
 */
module Panel {
  import opened Wrappers
  import opened Text
  import opened Phone

  datatype ClientInfo = ClientInfo(name: Option<string>, number: Option<string>, platform: Option<string>)

  /** What reaches the page: the server's socket events and the answer of the status request on load. */
  datatype PanelEvent =
    | Connect                                                // socket connected to the server
    | ServerDisconnect                                       // socket lost the server
    | Qr
    | Ready(clientInfo: Option<ClientInfo>)
    | Disconnected
    | AuthFailure
    | SessionStarting
    | MessageSent
    | ServerError
    | StatusLoaded(isReady: bool, info: Option<ClientInfo>)  // `/api/status` answered
    | StatusUnavailable                                      // `/api/status` failed

  const CONNECTED_TEXT := "متصل"
  const SERVER_LOST_TEXT := "انقطع الاتصال مع الخادم"
  const AWAITING_SCAN_TEXT := "في انتظار المسح"
  const NOT_CONNECTED_TEXT := "غير متصل"
  const AUTH_FAILED_TEXT := "فشل المصادقة"
  const SESSION_STARTING_TEXT := "جاري بدء الجلسة..."

  /** One `updateStatus(connected, text)` call. */
  datatype StatusChange = StatusChange(connected: bool, text: string)

  /** The `updateStatus` call an event makes, if any. */
  function StatusUpdate(e: PanelEvent): (r: Option<StatusChange>)
    ensures r.Some? && r.value.connected <==> e.Ready? || (e.StatusLoaded? && e.isReady && e.info.Some?)
    ensures (e.ServerDisconnect? || e.Qr? || e.Disconnected? || e.AuthFailure? || e.SessionStarting?)
            ==> r.Some? && !r.value.connected
    ensures (e.Connect? || e.MessageSent? || e.ServerError? || e.StatusUnavailable?) ==> r.None?
  {
    match e
    case Connect => None
    case ServerDisconnect => Some(StatusChange(false, SERVER_LOST_TEXT))
    case Qr => Some(StatusChange(false, AWAITING_SCAN_TEXT))
    case Ready(_) => Some(StatusChange(true, CONNECTED_TEXT))
    case Disconnected => Some(StatusChange(false, NOT_CONNECTED_TEXT))
    case AuthFailure => Some(StatusChange(false, AUTH_FAILED_TEXT))
    case SessionStarting => Some(StatusChange(false, SESSION_STARTING_TEXT))
    case MessageSent => None
    case ServerError => None
    case StatusLoaded(isReady, info) =>
      if isReady && info.Some? then Some(StatusChange(true, CONNECTED_TEXT)) else None
    case StatusUnavailable => None
  }

  /** The connection flag after the events, one after the other, starting from `connected`. */
  function ConnectedAfter(events: seq<PanelEvent>, connected: bool): bool {
    if events == [] then connected
    else
      var before := ConnectedAfter(events[..|events| - 1], connected);
      match StatusUpdate(events[|events| - 1])
      case Some(change) => change.connected
      case None => before
  }

  /**
   * The page shows a connection only when the last event that changed the
   * status reported one, or when it started connected and no event changed
   * the status.
   */
  lemma {:induction false} ConnectedOnlyAfterReady(events: seq<PanelEvent>, connected: bool)
    requires ConnectedAfter(events, connected)
    ensures (connected && forall j :: 0 <= j < |events| ==> StatusUpdate(events[j]).None?)
            || exists i :: 0 <= i < |events| && StatusUpdate(events[i]).Some? && StatusUpdate(events[i]).value.connected
                           && forall j :: i < j < |events| ==> StatusUpdate(events[j]).None?
  {
    if events != [] {
      var n := |events|;
      var init := events[..n - 1];
      if StatusUpdate(events[n - 1]).Some? {
        assert StatusUpdate(events[n - 1]).value.connected;
      } else {
        ConnectedOnlyAfterReady(init, connected);
        if exists i :: 0 <= i < |init| && StatusUpdate(init[i]).Some? && StatusUpdate(init[i]).value.connected
                       && forall j :: i < j < |init| ==> StatusUpdate(init[j]).None? {
          var i :| 0 <= i < |init| && StatusUpdate(init[i]).Some? && StatusUpdate(init[i]).value.connected
                   && forall j :: i < j < |init| ==> StatusUpdate(init[j]).None?;
          assert events[i] == init[i];
          forall j | i < j < n
            ensures StatusUpdate(events[j]).None?
          {
            if j < n - 1 {
              assert events[j] == init[j];
            }
          }
        } else {
          forall j | 0 <= j < n
            ensures StatusUpdate(events[j]).None?
          {
            if j < n - 1 {
              assert events[j] == init[j];
            }
          }
        }
      }
    }
  }

  class StatusPanel {
    var isConnected: bool
    var currentClientInfo: Option<ClientInfo>
    var statusText: string

    /** `isConnected = false`, `currentClientInfo = null`; the indicator shows the page's initial text. */
    constructor (initialText: string)
      ensures !isConnected && currentClientInfo.None? && statusText == initialText
    {
      isConnected := false;
      currentClientInfo := None;
      statusText := initialText;
    }

    /** `updateStatus`: the flag and the indicator text are set together. */
    method UpdateStatus(connected: bool, text: string)
      modifies this
      ensures isConnected == connected && statusText == text
      ensures currentClientInfo == old(currentClientInfo)
    {
      isConnected := connected;
      statusText := text;
    }

    /**
     * The handlers' effect on the page state: the status update the event
     * calls for, and the client details a ready or a disconnection sets.
     */
    method HandleEvent(e: PanelEvent)
      modifies this
      ensures isConnected == (if StatusUpdate(e).Some? then StatusUpdate(e).value.connected else old(isConnected))
      ensures statusText == (if StatusUpdate(e).Some? then StatusUpdate(e).value.text else old(statusText))
      ensures currentClientInfo == (match e
                                    case Ready(info) => info
                                    case Disconnected => None
                                    case StatusLoaded(isReady, info) => if isReady && info.Some? then info
                                                                        else old(currentClientInfo)
                                    case _ => old(currentClientInfo))
    {
      match e {
        case Connect =>
        case ServerDisconnect =>
          UpdateStatus(false, SERVER_LOST_TEXT);
        case Qr =>
          UpdateStatus(false, AWAITING_SCAN_TEXT);
        case Ready(info) =>
          UpdateStatus(true, CONNECTED_TEXT);
          currentClientInfo := info;
        case Disconnected =>
          UpdateStatus(false, NOT_CONNECTED_TEXT);
          currentClientInfo := None;
        case AuthFailure =>
          UpdateStatus(false, AUTH_FAILED_TEXT);
        case SessionStarting =>
          UpdateStatus(false, SESSION_STARTING_TEXT);
        case MessageSent =>
        case ServerError =>
        case StatusLoaded(isReady, info) =>
          if isReady && info.Some? {
            UpdateStatus(true, CONNECTED_TEXT);
            currentClientInfo := info;
          }
        case StatusUnavailable =>
      }
    }
  }

  // ---------------------------------------------------------------------
  // The test-message form

  /** The `send_test_message` request. */
  datatype TestMessage = TestMessage(number: string, message: string)

  /** Why a submit is refused, in the order the checks run. */
  datatype SubmitError = EmptyField | NotConnected | InvalidNumber

  /**
   * The submit handler: both trimmed fields must be non-empty, then the page
   * must be connected, then the number cleaned to digits and '+' must have at
   * least ten characters; a submit that passes asks for exactly one send.
   */
  function ValidateSubmit(phoneInput: string, messageInput: string, connected: bool): (r: Result<TestMessage, SubmitError>)
    ensures r == Err(EmptyField) <==> AllWhitespace(phoneInput) || AllWhitespace(messageInput)
    ensures r == Err(NotConnected) <==> !AllWhitespace(phoneInput) && !AllWhitespace(messageInput) && !connected
    ensures r == Err(InvalidNumber) <==> !AllWhitespace(phoneInput) && !AllWhitespace(messageInput) && connected
                                         && |PhoneCharsOnly(phoneInput)| < MIN_NUMBER_LENGTH
    ensures r.Ok? ==> connected && r.value.number == PhoneCharsOnly(phoneInput)
                      && |r.value.number| >= MIN_NUMBER_LENGTH
                      && r.value.message == Trim(messageInput) && r.value.message != ""
  {
    var phoneNumber := Trim(phoneInput);
    var messageText := Trim(messageInput);
    if phoneNumber == "" || messageText == "" then Err(EmptyField)
    else if !connected then Err(NotConnected)
    else
      var cleanNumber := PhoneCharsOnly(phoneNumber);
      TrimKeepsPhoneChars(phoneInput);
      if |cleanNumber| < MIN_NUMBER_LENGTH then Err(InvalidNumber)
      else Ok(TestMessage(cleanNumber, messageText))
  }

  /** Nothing is sent after the client's disconnection until a later event reports it ready again. */
  lemma NoSendWhileDisconnected(events: seq<PanelEvent>, connected: bool, phoneInput: string, messageInput: string)
    requires events != [] && events[0] == Disconnected
    requires forall j :: 0 < j < |events| ==> !(StatusUpdate(events[j]).Some? && StatusUpdate(events[j]).value.connected)
    ensures ValidateSubmit(phoneInput, messageInput, ConnectedAfter(events, connected)).Err?
  {
    if ConnectedAfter(events, connected) {
      ConnectedOnlyAfterReady(events, connected);
    }
  }

  /**
   * The phone field's sanitiser and the submit's cleaning agree: a sanitised
   * field of ten or more characters is sent exactly as it is shown.
   */
  lemma SanitizedFieldSentAsShown(value: string, messageInput: string)
    requires |Sanitize(value)| >= MIN_NUMBER_LENGTH && !AllWhitespace(messageInput)
    ensures ValidateSubmit(Sanitize(value), messageInput, true) == Ok(TestMessage(Sanitize(value), Trim(messageInput)))
  {
    var s := Sanitize(value);
    FilterIdentity(s, IsPhoneChar);
    assert !IsJsWhitespace(s[0]);
  }
}
