/**
 * components/chatroom.tsx: a community's chat panel. The send guard, what
 * a send does to the input box, which messages are the reader's own, the
 * avatar letter, and the relative times.
 */
module Chatroom {
  import opened Wrappers
  import opened Text
  import Header

  /** A message as the panel receives it. */
  datatype Message = Message(id: string, text: string, createdAt: Option<int>, senderId: string, senderName: string)

  /** A relative time in this panel: minutes, then whole hours, then a date. */
  datatype Ago = JustNow | MinutesAgo(n: int) | HoursAgo(n: int) | OnDate

  /** `formatTime`: minutes are floored, and the hours are the floored minutes divided by 60. */
  function FormatTime(time: Option<int>, now: int): (a: Ago)
    ensures time.None? ==> a == OnDate
    ensures a == JustNow <==> time.Some? && now - time.value < 60000
    ensures a.MinutesAgo? ==> 1 <= a.n < 60 && a.n * 60000 <= now - time.value < (a.n + 1) * 60000
    ensures a.HoursAgo? ==> 1 <= a.n < 24 && a.n * 3600000 <= now - time.value < (a.n + 1) * 3600000
    ensures a == OnDate <==> time.None? || now - time.value >= 1440 * 60000
  {
    if time.None? then OnDate
    else
      var minutes := (now - time.value) / 60000;
      if minutes < 1 then JustNow
      else if minutes < 60 then MinutesAgo(minutes)
      else if minutes < 1440 then HoursAgo(minutes / 60)
      else OnDate
  }

  /**
   * The chat panel and the notification menu agree on everything under a
   * day: the same minute and hour counts (the menu's hours are floored from
   * the milliseconds, these from the floored minutes), and both say 'Just now'
   * for the future. From one day on the menu counts days, the panel shows a date.
   */
  lemma AgreesWithHeaderUnderADay(time: int, now: int)
    requires now - time < 1440 * 60000
    ensures FormatTime(Some(time), now).JustNow? <==> Header.FormatTime(Some(time), now).JustNow?
    ensures FormatTime(Some(time), now).MinutesAgo? <==> Header.FormatTime(Some(time), now).MinutesAgo?
    ensures FormatTime(Some(time), now).HoursAgo? <==> Header.FormatTime(Some(time), now).HoursAgo?
    ensures FormatTime(Some(time), now).MinutesAgo? ==> FormatTime(Some(time), now).n == Header.FormatTime(Some(time), now).n
    ensures FormatTime(Some(time), now).HoursAgo? ==> FormatTime(Some(time), now).n == Header.FormatTime(Some(time), now).n
  {
  }

  /** `message.user.id === user?.id`: never true without a signed-in user. */
  function IsOwn(m: Message, user: Option<string>): (b: bool)
    ensures user.None? ==> !b
    ensures user.Some? ==> (b <==> user.value == m.senderId)
  {
    user == Some(m.senderId)
  }

  /** `full_name.charAt(0).toUpperCase()`: empty for an empty name. */
  function AvatarInitial(fullName: string): (r: string)
    ensures |r| == if fullName == "" then 0 else 1
    ensures fullName != "" ==> r == [UpperChar(fullName[0])]
    ensures fullName != "" ==> Capitalize(fullName)[..1] == r
  {
    if fullName == "" then "" else [UpperChar(fullName[0])]
  }

  /** The send request's result. */
  datatype SendResult = Sent | SendRejected(error: Option<string>) | SendThrew

  /** The panel after `sendMessage`: the input box, the request body if one was sent, an alert, and `sending`. */
  datatype SendState = SendState(input: string, body: Option<string>, alert: Option<string>, sending: bool)

  /**
   * `sendMessage`: nothing happens for a blank input or while a send is in
   * flight; otherwise the untrimmed text is sent, and the box is cleared only
   * when the send succeeds.
   */
  function SendMessage(input: string, sending: bool, result: SendResult): (s: SendState)
    ensures Blank(input) || sending ==> s == SendState(input, None, None, sending)
    ensures !Blank(input) && !sending ==> s.body == Some(input) && !s.sending
    ensures !Blank(input) && !sending ==> (s.input == "" <==> result.Sent?)
    ensures !Blank(input) && !sending ==> (s.alert.None? <==> result.Sent?)
  {
    if Blank(input) || sending then SendState(input, None, None, sending)
    else match result
      case Sent => SendState("", Some(input), None, false)
      case SendRejected(e) => SendState(input, Some(input), Some("Failed to send message: " + (if e.Some? then e.value else "undefined")), false)
      case SendThrew => SendState(input, Some(input), Some("Failed to send message"), false)
  }

  /** Surrounding spaces are sent as typed: the guard trims, the body does not. */
  lemma BodyIsUntrimmed(word: string)
    requires !Blank(word)
    ensures SendMessage(" " + word + " ", false, Sent).body == Some(" " + word + " ")
  {
    var i :| 0 <= i < |word| && !IsSpace(word[i]);
    assert (" " + word + " ")[i + 1] == word[i];
  }
}
