/**
  The voice-call screen of src/components/CallScreen.tsx: the clock text
  `formatTime`, the keyword topic detection and the reply chosen for a
  topic, and the call's state machine. The component's state
  (`callState`, `timer`, `connectingTimer`, `isMuted`) is a class whose
  methods are the interval callbacks, the effect that hands the call to the
  assistant, the mute button and the speech-recognition result handler.
  One call of `Tick` is one second: the interval of the current state fires,
  then the effect runs on the new state.
*/
module CallScreen {
  import opened Wrappers
  import Text
  import Decimal

  // ================================================================ the clock

  /** JavaScript's `n % d` for `d > 0`: the remainder takes the sign of `n`. */
  function JsRem(n: int, d: int): (r: int)
    requires d > 0
    ensures n >= 0 ==> 0 <= r < d && r == n % d
    ensures n < 0 ==> -d < r <= 0
  {
    if n >= 0 then n % d else -((-n) % d)
  }

  /** `formatTime(seconds)`: `Math.floor(seconds / 60)` and `seconds % 60`,
      each written with `toString()` and padded to two characters with '0'. */
  function FormatTime(seconds: int): string {
    Decimal.PadStart(Decimal.IntToString(seconds / 60), 2, '0') + ":" +
    Decimal.PadStart(Decimal.IntToString(JsRem(seconds, 60)), 2, '0')
  }

  /** A number written with `toString()` and padded to two characters. */
  function Field(n: nat): string {
    Decimal.PadStart(Decimal.NatToString(n), 2, '0')
  }

  /** Reading a clock text back: the digits before the colon are minutes,
      the two digits after it seconds below 60; `None` for any other text. */
  function ReadClock(r: string): Option<nat> {
    if |r| >= 5 && r[|r| - 3] == ':' then ReadFields(r[..|r| - 3], r[|r| - 2..]) else None
  }

  /** The number of seconds that a clock showing `minutes` and `secs` stands for. */
  function Seconds(minutes: nat, secs: nat): nat {
    60 * minutes + secs
  }

  /** The minutes and the seconds fields of a clock text as a number of seconds. */
  function ReadFields(mm: string, ss: string): Option<nat> {
    if Decimal.AllDigits(mm) && Decimal.AllDigits(ss) && Decimal.DigitsValue(ss) < 60
    then Some(Seconds(Decimal.DigitsValue(mm), Decimal.DigitsValue(ss)))
    else None
  }

  /** For the timer's values (never negative) the text reads back as the
      number of seconds: at least two minute digits, a colon, two second
      digits below 60. */
  lemma FormatTimeRoundTrip(seconds: nat)
    ensures ReadClock(FormatTime(seconds)) == Some(seconds)
  {
    var mins, secs := seconds / 60, seconds % 60;
    assert seconds == Seconds(mins, secs) && secs < 60;
    TwoDigitField(mins);
    TwoDigitField(secs);
    assert FormatTime(seconds) == Field(mins) + ":" + Field(secs);
    ReadJoined(Field(mins), Field(secs));
  }

  /** The text has five characters exactly up to 99:59, and more after. */
  lemma FormatTimeWidth(seconds: nat)
    ensures |FormatTime(seconds)| >= 5
    ensures seconds < 6000 <==> |FormatTime(seconds)| == 5
  {
    var mins, secs := seconds / 60, seconds % 60;
    TwoDigitField(mins);
    TwoDigitField(secs);
    HundredMinutes(seconds);
    assert FormatTime(seconds) == Field(mins) + ":" + Field(secs);
  }

  /** Two different timer values never show the same text. */
  lemma FormatTimeInjective(a: nat, b: nat)
    requires FormatTime(a) == FormatTime(b)
    ensures a == b
  {
    FormatTimeRoundTrip(a);
    FormatTimeRoundTrip(b);
  }

  /** Fewer than 100 minutes is fewer than 6000 seconds. */
  lemma HundredMinutes(seconds: nat)
    ensures seconds / 60 < 100 <==> seconds < 6000
  {
    var m, s := seconds / 60, seconds % 60;
    assert seconds == 60 * m + s && 0 <= s < 60;
  }

  /** A field reads back as its number and has two characters exactly when
      the number is below 100. */
  lemma TwoDigitField(n: nat)
    ensures var f := Field(n);
      Decimal.AllDigits(f) && Decimal.DigitsValue(f) == n && |f| >= 2 && (n < 100 <==> |f| == 2)
  {
    Decimal.PaddedRoundTrip(n, 2);
    if n >= 10 {
      assert Decimal.NatToString(n) == Decimal.NatToString(n / 10) + [Decimal.DigitChar(n % 10)];
      assert n < 100 <==> n / 10 < 10;
    }
  }

  /** Any minutes field and two-digit seconds field below 60 read back. */
  lemma ReadJoined(mm: string, ss: string)
    requires Decimal.AllDigits(mm) && |mm| >= 2 && Decimal.AllDigits(ss) && |ss| == 2
    requires Decimal.DigitsValue(ss) < 60
    ensures ReadClock(mm + ":" + ss) == Some(Seconds(Decimal.DigitsValue(mm), Decimal.DigitsValue(ss)))
  {
    SplitAtColon(mm, ss);
  }

  /** A text of at least two characters, a colon and two characters is read
      field by field. */
  lemma SplitAtColon(mm: string, ss: string)
    requires |mm| >= 2 && |ss| == 2
    ensures ReadClock(mm + ":" + ss) == ReadFields(mm, ss)
  {
    var r := mm + ":" + ss;
    assert r[..|r| - 3] == mm;
    assert r[|r| - 2..] == ss;
  }

  // ================================================================ topics

  const NetworkTopic := "Problème réseau"
  const BillingTopic := "Facture"
  const OfferTopic := "Infos offre"
  const OtherTopic := "Autre demande"

  /** The keywords of each topic, looked for in the lower-cased message. */
  predicate MentionsNetwork(l: string) {
    Text.Contains(l, "réseau") || Text.Contains(l, "connexion") || Text.Contains(l, "wifi") || Text.Contains(l, "internet")
  }

  predicate MentionsBilling(l: string) {
    Text.Contains(l, "facture") || Text.Contains(l, "paiement") || Text.Contains(l, "prix") || Text.Contains(l, "coût")
  }

  predicate MentionsOffer(l: string) {
    Text.Contains(l, "offre") || Text.Contains(l, "tarif") || Text.Contains(l, "forfait") || Text.Contains(l, "abonnement")
  }

  /** `detectTopic(message)`: the first topic, in the order network, billing,
      offer, whose keywords the lower-cased message contains. */
  function DetectTopic(message: string): string {
    var l := Text.Lower(message);
    if MentionsNetwork(l) then NetworkTopic
    else if MentionsBilling(l) then BillingTopic
    else if MentionsOffer(l) then OfferTopic
    else OtherTopic
  }

  /** The position of a topic in the precedence order; an unknown topic
      comes last with the default one. */
  function TopicRank(topic: string): nat {
    if topic == NetworkTopic then 0
    else if topic == BillingTopic then 1
    else if topic == OfferTopic then 2
    else 3
  }

  /** The detected topic is one of the four, and it is each one exactly when
      its keywords occur and those of every earlier topic do not. */
  lemma DetectTopicPrecedence(message: string)
    ensures var l := Text.Lower(message);
      var t := DetectTopic(message);
      && (t == NetworkTopic <==> MentionsNetwork(l))
      && (t == BillingTopic <==> !MentionsNetwork(l) && MentionsBilling(l))
      && (t == OfferTopic <==> !MentionsNetwork(l) && !MentionsBilling(l) && MentionsOffer(l))
      && (t == OtherTopic <==> !MentionsNetwork(l) && !MentionsBilling(l) && !MentionsOffer(l))
  {
    TopicsDistinct();
  }

  lemma TopicsDistinct()
    ensures NetworkTopic != BillingTopic && NetworkTopic != OfferTopic && NetworkTopic != OtherTopic
    ensures BillingTopic != OfferTopic && BillingTopic != OtherTopic && OfferTopic != OtherTopic
  {
    assert |NetworkTopic| == 15 && |BillingTopic| == 7 && |OfferTopic| == 11 && |OtherTopic| == 13;
  }

  /** Upper-casing the letters of a message does not change its topic. */
  lemma DetectTopicIgnoresCase(message: string)
    ensures DetectTopic(Text.Upper(message)) == DetectTopic(message)
  {
    var u := Text.Upper(message);
    forall i | 0 <= i < |message| ensures Text.LowerChar(u[i]) == Text.LowerChar(message[i]) {
    }
    assert Text.Lower(u) == Text.Lower(message);
  }

  /** Words around a message can only move its topic earlier in the order:
      a keyword found in the message is still found in the longer text. */
  lemma DetectTopicMonotone(before: string, message: string, after: string)
    ensures TopicRank(DetectTopic(before + message + after)) <= TopicRank(DetectTopic(message))
  {
    TopicsDistinct();
    var l := Text.Lower(message);
    assert Text.Lower(before + message + after) == Text.Lower(before) + l + Text.Lower(after);
    KeywordsInside(Text.Lower(before), l, Text.Lower(after));
  }

  /** Each topic's keywords found in `l` are found in `a + l + c`. */
  lemma KeywordsInside(a: string, l: string, c: string)
    ensures MentionsNetwork(l) ==> MentionsNetwork(a + l + c)
    ensures MentionsBilling(l) ==> MentionsBilling(a + l + c)
    ensures MentionsOffer(l) ==> MentionsOffer(a + l + c)
  {
    forall w: string | Text.Contains(l, w) ensures Text.Contains(a + l + c, w) {
      Text.ContainsInside(a, l, c, w);
    }
  }

  // ================================================================ replies

  /** The four replies of `getResponseForTopic`, by name. */
  datatype Reply = Diagnose | ExplainBill | DescribeOffers | AskDetails

  function ReplyText(r: Reply): string {
    match r
    case Diagnose => "Je vois un souci de réseau. Souhaitez-vous diagnostiquer la box, le Wi‑Fi ou la ligne ?"
    case ExplainBill => "Concernant votre facture, je peux vous aider à la consulter ou expliquer un montant. Que souhaitez‑vous faire ?"
    case DescribeOffers => "Pour nos offres, préférez‑vous des informations sur le mobile, l’internet ou la TV ?"
    case AskDetails => "Bien noté. Pouvez‑vous préciser votre demande pour que je vous aide au mieux ?"
  }

  /** `getResponseForTopic(topic)`: a reply for every string, the request for
      details when the topic is none of the three named ones. */
  function ResponseForTopic(topic: string): (r: Reply)
    ensures r == Diagnose <==> topic == NetworkTopic
    ensures r == ExplainBill <==> topic == BillingTopic
    ensures r == DescribeOffers <==> topic == OfferTopic
    ensures r == AskDetails <==> topic != NetworkTopic && topic != BillingTopic && topic != OfferTopic
  {
    TopicsDistinct();
    if topic == NetworkTopic then Diagnose
    else if topic == BillingTopic then ExplainBill
    else if topic == OfferTopic then DescribeOffers
    else AskDetails
  }

  /** A message gets a specific reply exactly when it contains a keyword. */
  lemma ReplyForMessage(message: string)
    ensures var l := Text.Lower(message);
      ResponseForTopic(DetectTopic(message)) == AskDetails <==>
        !MentionsNetwork(l) && !MentionsBilling(l) && !MentionsOffer(l)
  {
    TopicsDistinct();
  }

  // ================================================================ the call

  datatype CallState = Connecting | Calling | AiResponding | Ended

  /** The component's state as a value. */
  datatype Screen = Screen(state: CallState, timer: int, countdown: int, muted: bool)

  const Initial := Screen(Connecting, 0, 10, false)

  /** The updater of `connectingTimer`: one less, and 0 once it reaches 1 or
      less, when the call also moves to 'calling'. */
  function Countdown(prev: int): (next: int)
    ensures next >= 0
    ensures next == 0 <==> prev <= 1
    ensures prev > 1 ==> next == prev - 1
  {
    if prev <= 1 then 0 else prev - 1
  }

  /** The interval running in the current state fires once. */
  function Fire(s: Screen): Screen {
    match s.state
    case Connecting => s.(state := if s.countdown <= 1 then Calling else Connecting, countdown := Countdown(s.countdown))
    case Calling => s.(timer := s.timer + 1)
    case AiResponding => s.(timer := s.timer + 1)
    case Ended => s
  }

  /** The effect on `callState` and `timer`: a call that has lasted 30
      seconds is handed to the assistant. */
  function Handover(s: Screen): Screen {
    if s.state == Calling && s.timer >= 30 then s.(state := AiResponding) else s
  }

  /** One second of the call. */
  function Second(s: Screen): Screen {
    Handover(Fire(s))
  }

  /** Speech recognition runs in 'calling' and 'ai-responding' while the
      microphone is not muted. */
  predicate Listening(s: Screen) {
    (s.state == Calling || s.state == AiResponding) && !s.muted
  }

  /** The state after a recognition result: a non-blank final transcript,
      heard while listening, hands the call to the assistant. */
  function AfterHearing(s: Screen, transcript: Option<string>): Screen {
    if Listening(s) && transcript.Some? && Text.Strip(transcript.value) != "" then s.(state := AiResponding) else s
  }

  /** The reply spoken for a recognition result, if any. */
  function ReplyHeard(s: Screen, transcript: Option<string>): Option<Reply> {
    if Listening(s) && transcript.Some? && Text.Strip(transcript.value) != ""
    then Some(ResponseForTopic(DetectTopic(Text.Strip(transcript.value))))
    else None
  }

  /** What holds in every state the screen reaches: the countdown is between
      1 and 10 while connecting and 0 afterwards, the timer does not run
      before the call starts and is below 30 while calling, and the call
      never ends (nothing in the component sets 'ended'). */
  predicate Consistent(s: Screen) {
    && s.timer >= 0
    && s.state != Ended
    && (s.state == Connecting ==> 1 <= s.countdown <= 10 && s.timer == 0)
    && (s.state != Connecting ==> s.countdown == 0)
    && (s.state == Calling ==> s.timer < 30)
  }

  lemma InitialConsistent()
    ensures Consistent(Initial)
  {
  }

  /** Every step keeps the screen consistent. */
  lemma SecondConsistent(s: Screen)
    requires Consistent(s)
    ensures Consistent(Second(s))
  {
  }

  lemma HearingConsistent(s: Screen, transcript: Option<string>)
    requires Consistent(s)
    ensures Consistent(AfterHearing(s, transcript))
    ensures Consistent(s.(muted := !s.muted))
  {
  }

  /** The screen after `n` seconds with nothing said. */
  function Run(s: Screen, n: nat): Screen
    decreases n
  {
    if n == 0 then s else Second(Run(s, n - 1))
  }

  /** Left alone, the call connects for ten seconds, counting down from 10,
      calls for thirty seconds with the timer counting from 0, and from then
      on the assistant answers while the timer keeps running. */
  lemma {:induction false} Schedule(n: nat)
    ensures Run(Initial, n) ==
      if n < 10 then Screen(Connecting, 0, 10 - n, false)
      else if n < 40 then Screen(Calling, n - 10, 0, false)
      else Screen(AiResponding, n - 10, 0, false)
  {
    if n > 0 {
      Schedule(n - 1);
    }
  }

  class Call {
    var callState: CallState
    var timer: int
    var connectingTimer: int
    var isMuted: bool

    function View(): Screen
      reads this
    {
      Screen(callState, timer, connectingTimer, isMuted)
    }

    constructor ()
      ensures View() == Initial
    {
      callState := Connecting;
      timer := 0;
      connectingTimer := 10;
      isMuted := false;
    }

    /** One second: the interval of the current state fires, then the
        effect of lines 53-57 runs. */
    method Tick()
      modifies this
      ensures View() == Second(old(View()))
    {
      if callState == Connecting {
        var prev := connectingTimer;
        if prev <= 1 {
          callState := Calling;
          connectingTimer := 0;
        } else {
          connectingTimer := prev - 1;
        }
      } else if callState == Calling || callState == AiResponding {
        timer := timer + 1;
      }
      if callState == Calling && timer >= 30 {
        callState := AiResponding;
      }
    }

    /** The mute button. */
    method ToggleMute()
      modifies this
      ensures View() == old(View()).(muted := !old(isMuted))
    {
      isMuted := !isMuted;
    }

    /** `recognition.onresult`: `transcript` is the trimmed transcript of the
        last result when that result is final and has one. */
    method Hear(transcript: Option<string>) returns (reply: Option<Reply>)
      modifies this
      ensures View() == AfterHearing(old(View()), transcript)
      ensures reply == ReplyHeard(old(View()), transcript)
    {
      reply := None;
      if !((callState == Calling || callState == AiResponding) && !isMuted) {
        return;
      }
      if transcript.None? {
        return;
      }
      var said := Text.Strip(transcript.value);
      if said == "" {
        return;
      }
      if callState != AiResponding {
        callState := AiResponding;
      }
      var topic := DetectTopic(said);
      reply := Some(ResponseForTopic(topic));
    }
  }
}
