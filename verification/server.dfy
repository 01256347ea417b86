/** The SMS endpoint of the backend (backend/server.js): the guard that
    rejects a request without a usable signal, the text message built from
    a signal, and the outgoing record.

    Field values that the message interpolates are taken as the text
    JavaScript would produce for them; an absent field renders as
    "undefined". Express routing, the artificial delay, logging and the
    actual sending are not modelled.
 */
module Server {
  import opened Common
  import opened Text

  /** The `signal` of a request body; every field may be absent. */
  datatype SignalBody = SignalBody(
    id: Option<int>,
    kind: Option<string>,
    pair: Option<string>,
    price: Option<string>,
    strength: Option<string>,
    conditions: Option<seq<string>>,
    stopLoss: Option<string>,
    takeProfit: Option<string>,
    timestamp: Option<string>)

  /** JavaScript truthiness of an optional string. */
  predicate TruthyText(v: Option<string>)
  {
    v.Some? && v.value != ""
  }

  /** What a template literal shows for an optional string. */
  function Shown(v: Option<string>): string
  {
    match v
    case Some(s) => s
    case None => "undefined"
  }

  /** The fixed recipient of every alert. */
  const Recipient: string := "+16629249008"

  /** The 400 reply to an unusable request. */
  datatype ErrorReply = ErrorReply(status: nat, error: string, required: seq<string>)

  /** A signal is usable when it is present and its type and pair are
      truthy. */
  predicate Usable(signal: Option<SignalBody>)
  {
    signal.Some? && TruthyText(signal.value.kind) && TruthyText(signal.value.pair)
  }

  /** The validation guard of the endpoint. */
  function ValidateSignal(signal: Option<SignalBody>): (r: Result<SignalBody, ErrorReply>)
    ensures r.Failure? <==> !Usable(signal)
    ensures r.Failure? ==> r.error == ErrorReply(400, "Invalid signal data", ["type", "pair"])
    ensures r.Success? ==> r.value == signal.value
  {
    if signal.None? || !TruthyText(signal.value.kind) || !TruthyText(signal.value.pair) then
      Failure(ErrorReply(400, "Invalid signal data", ["type", "pair"]))
    else
      Success(signal.value)
  }

  const GreenCircle: string := "\U{1F7E2}"
  const RedCircle: string := "\U{1F534}"

  /** Green for a BUY, red for every other type, absent included. */
  function Emoji(kind: Option<string>): (e: string)
    ensures e == GreenCircle <==> kind == Some("BUY")
    ensures e == RedCircle <==> kind != Some("BUY")
  {
    if kind == Some("BUY") then GreenCircle else RedCircle
  }

  /** The dashboard's direction labels get the expected colours. */
  lemma EmojiOfDirections()
    ensures Emoji(Some(Label(Buy))) == GreenCircle
    ensures Emoji(Some(Label(Sell))) == RedCircle
    ensures Emoji(Some(Label(Neutral))) == RedCircle
  {
  }

  /** The first three conditions joined by ", ", or "N/A" without a list. */
  function ConditionsText(conditions: Option<seq<string>>): (t: string)
    ensures conditions.None? ==> t == "N/A"
    ensures conditions.Some? && |conditions.value| == 0 ==> t == ""
  {
    match conditions
    case None => "N/A"
    case Some(cs) => Join(cs[..Min(|cs|, 3)], ", ")
  }

  /** Splitting the conditions text at commas gives back at most three of
      the conditions in order, each after the first preceded by a space. */
  lemma ConditionsTextPieces(cs: seq<string>)
    requires |cs| >= 1
    requires forall i :: 0 <= i < |cs| ==> ',' !in cs[i]
    ensures |Split(ConditionsText(Some(cs)), ',')| == Min(|cs|, 3)
    ensures Split(ConditionsText(Some(cs)), ',')[0] == cs[0]
    ensures forall i :: 1 <= i < Min(|cs|, 3) ==> Split(ConditionsText(Some(cs)), ',')[i] == " " + cs[i]
  {
    var shown := cs[..Min(|cs|, 3)];
    assert [','] + " " == ", ";
    SplitJoin(shown, ',', " ");
    assert forall i :: 1 <= i < Min(|cs|, 3) ==> shown[i] == cs[i];
  }

  /** The eight lines of an alert, top to bottom. */
  function MessageLines(s: SignalBody): (lines: seq<string>)
    ensures |lines| == 8
  {
    [ Emoji(s.kind) + " TRADING SIGNAL",
      Shown(s.kind) + " " + Shown(s.pair),
      "Price: " + Shown(s.price),
      "Strength: " + Shown(s.strength) + "%",
      "Conditions: " + ConditionsText(s.conditions),
      "SL: " + Shown(s.stopLoss),
      "TP: " + Shown(s.takeProfit),
      "Time: " + Shown(s.timestamp) ]
  }

  /** `formatSignalMessage`: the lines joined by newlines. */
  function FormatSignalMessage(s: SignalBody): (m: string)
    ensures Emoji(s.kind) + " TRADING SIGNAL\n" <= m
  {
    Join(MessageLines(s), "\n")
  }

  /** No interpolated field contains a line break. */
  predicate SingleLineFields(s: SignalBody)
  {
    && '\n' !in Shown(s.kind) && '\n' !in Shown(s.pair) && '\n' !in Shown(s.price)
    && '\n' !in Shown(s.strength) && '\n' !in ConditionsText(s.conditions)
    && '\n' !in Shown(s.stopLoss) && '\n' !in Shown(s.takeProfit) && '\n' !in Shown(s.timestamp)
  }

  /** With single-line fields the message reads back as exactly eight lines:
      header, type and pair, price, strength with a percent sign,
      conditions, stop-loss, take-profit and time. */
  lemma {:induction false} MessageHasEightLines(s: SignalBody)
    requires SingleLineFields(s)
    ensures |Split(FormatSignalMessage(s), '\n')| == 8
    ensures Split(FormatSignalMessage(s), '\n') == MessageLines(s)
    ensures Split(FormatSignalMessage(s), '\n')[0] == Emoji(s.kind) + " TRADING SIGNAL"
    ensures Split(FormatSignalMessage(s), '\n')[1] == Shown(s.kind) + " " + Shown(s.pair)
    ensures Split(FormatSignalMessage(s), '\n')[3] == "Strength: " + Shown(s.strength) + "%"
    ensures Split(FormatSignalMessage(s), '\n')[7] == "Time: " + Shown(s.timestamp)
  {
    var lines := MessageLines(s);
    forall i | 0 <= i < |lines| ensures '\n' !in lines[i] {
      NoBreakInConcat(lines, i, s);
    }
    SplitJoinChar(lines, '\n');
  }

  /** Each line of the message is free of line breaks when the fields are. */
  lemma NoBreakInConcat(lines: seq<string>, i: int, s: SignalBody)
    requires lines == MessageLines(s) && 0 <= i < 8
    requires SingleLineFields(s)
    ensures '\n' !in lines[i]
  {
  }

  /** What the backend would hand to the SMS service. */
  datatype SmsData = SmsData(to: string, message: string, timestamp: string, signalId: Option<int>)

  /** The reply of the endpoint. */
  datatype Reply =
    | Rejected(reply: ErrorReply)
    | Sent(sms: SmsData, success: bool, info: string, smsId: string, timestamp: string)

  /** The SMS endpoint: reject an unusable signal with status 400 and
      nothing formatted; otherwise build the outgoing record for the fixed
      recipient, carrying the signal's id, and acknowledge it. The clock is
      the pair of parameters `nowIso` and `nowMs`. */
  function HandleSendSms(signal: Option<SignalBody>, nowIso: string, nowMs: nat): (r: Reply)
    ensures r.Rejected? <==> !Usable(signal)
    ensures r.Rejected? ==> r.reply.status == 400 && r.reply.required == ["type", "pair"]
    ensures r.Sent? ==>
      && r.sms.to == Recipient
      && r.sms.signalId == signal.value.id
      && r.sms.message == FormatSignalMessage(signal.value)
      && r.success
      && r.sms.timestamp == nowIso && r.timestamp == nowIso
      && r.smsId == "sms_" + NatToString(nowMs)
  {
    match ValidateSignal(signal)
    case Failure(e) => Rejected(e)
    case Success(s) =>
      var sms := SmsData(Recipient, FormatSignalMessage(s), nowIso, s.id);
      Sent(sms, true, "SMS sent successfully", "sms_" + NatToString(nowMs), sms.timestamp)
  }
}
