/**
  The e-mail verification screen: the six-cell code, the focus moves between
  cells, the countdown that gates re-sending the code, its `m:ss` rendering,
  and the length check in front of the activation request.
 */
module Verify {
  import opened Wrappers
  import opened Text

  /** Number of cells in the code. */
  const CodeLength := 6
  /** Seconds the countdown starts from, on mount and after each re-send. */
  const ResendSeconds := 900

  const CodeSent := "Yeni doğrulama kodu gönderildi."
  const ResendFailed := "Kod gönderilemedi."
  const IncompleteCode := "Lütfen 6 haneli kodu eksiksiz girin."
  const VerificationFailed := "Doğrulama başarısız."
  const CodeExpired := "Kodun süresi doldu"
  const EmailVerified := "E-posta adresiniz doğrulandı!"

  /** A code as the screen holds it: one string per cell. */
  predicate WellFormedCode(code: seq<string>)
  {
    |code| == CodeLength
  }

  /** The value the screen mounts with: six empty cells. */
  function InitialCode(): (code: seq<string>)
    ensures WellFormedCode(code)
    ensures forall k :: 0 <= k < |code| ==> code[k] == ""
  {
    ["", "", "", "", "", ""]
  }

  /**
    `handleCodeChange`, the state update: a copy of the code with cell `index`
    set to the text; the copy is what the screen keeps.
   */
  method HandleCodeChange(code: array<string>, text: string, index: nat)
    returns (newCode: array<string>, focus: Option<nat>)
    requires index < code.Length
    ensures fresh(newCode) && newCode.Length == code.Length
    ensures newCode[index] == text
    ensures forall k :: 0 <= k < code.Length && k != index ==> newCode[k] == code[k]
    ensures focus == FocusAfterChange(text, index)
  {
    var copy := code[..];
    newCode := new string[|copy|](k requires 0 <= k < |copy| => copy[k]);
    newCode[index] := text;
    focus := FocusAfterChange(text, index);
  }

  /** `handleCodeChange`, the focus move: to the next cell after one typed character, if there is one. */
  function FocusAfterChange(text: string, index: nat): (next: Option<nat>)
    ensures next.Some? <==> |text| == 1 && index < CodeLength - 1
    ensures next.Some? ==> next.value == index + 1 && next.value < CodeLength
  {
    if |text| == 1 && index < CodeLength - 1 then Some(index + 1) else None
  }

  /** `handleKeyPress`: Backspace in an empty cell moves back one cell, except from the first. */
  function FocusAfterKey(key: string, code: seq<string>, index: nat): (previous: Option<nat>)
    requires index < |code|
    ensures previous.Some? <==> key == "Backspace" && code[index] == "" && index > 0
    ensures previous.Some? ==> previous.value + 1 == index
  {
    if key == "Backspace" && code[index] == "" && index > 0 then Some(index - 1) else None
  }

  /** The reducer the countdown interval applies once a second. */
  function Tick(previous: int): (next: int)
    ensures next >= 0
    ensures previous >= 0 ==> next <= previous
    ensures previous > 0 ==> next == previous - 1
  {
    if previous <= 1 then 0 else previous - 1
  }

  /** The countdown after `n` ticks. */
  function Ticks(timer: int, n: nat): int
  {
    if n == 0 then timer else Tick(Ticks(timer, n - 1))
  }

  /** `n` ticks take `n` seconds off a non-negative countdown, and stop at zero. */
  lemma {:induction false} TicksSaturate(timer: nat, n: nat)
    ensures Ticks(timer, n) == if n < timer then timer - n else 0
  {
    if n > 0 {
      TicksSaturate(timer, n - 1);
    }
  }

  /** A full countdown runs out after exactly its length in ticks, and not before. */
  lemma CountdownLength()
    ensures Ticks(ResendSeconds, ResendSeconds) == 0
    ensures forall n: nat :: n < ResendSeconds ==> Ticks(ResendSeconds, n) > 0
  {
    TicksSaturate(ResendSeconds, ResendSeconds);
    forall n: nat | n < ResendSeconds ensures Ticks(ResendSeconds, n) > 0 {
      TicksSaturate(ResendSeconds, n);
    }
  }

  /** `Math.floor(t / 60)` and `(t % 60).toString().padStart(2, '0')` joined by a colon. */
  function Clock(t: nat): string
  {
    NatToString(t / 60) + ":" + Pad2(NatToString(t % 60))
  }

  /** The timer line: the remaining time while it runs, the expiry notice after. */
  function TimerText(timer: int): (text: string)
    ensures timer <= 0 ==> text == CodeExpired
    ensures timer > 0 ==> text == "Kod " + Clock(timer) + " içinde sona erecek"
  {
    if timer > 0 then "Kod " + Clock(timer) + " içinde sona erecek" else CodeExpired
  }

  /**
    Reading the clock back: it splits at its one colon into a minutes numeral
    and a two-digit seconds numeral, which are the whole minutes and the
    seconds below 60 of the time, so minutes * 60 + seconds is the time.
   */
  lemma ClockReadsBack(t: nat)
    ensures var parts := Split(Clock(t), ':');
      && |parts| == 2
      && AllDigits(parts[0]) && AllDigits(parts[1]) && |parts[1]| == 2
      && DecimalValue(parts[0]) == t / 60 && DecimalValue(parts[1]) == t % 60
      && DecimalValue(parts[1]) < 60
      && DecimalValue(parts[0]) * 60 + DecimalValue(parts[1]) == t
  {
    var m, s := NatToString(t / 60), Pad2(NatToString(t % 60));
    NatToStringShort(t % 60);
    Pad2Value(NatToString(t % 60));
    assert ':' !in m by {
      assert forall k :: 0 <= k < |m| ==> m[k] != ':';
    }
    assert ':' !in s by {
      assert forall k :: 0 <= k < |s| ==> s[k] != ':';
    }
    assert Clock(t) == m + [':'] + s;
    SplitCons(m, s, ':');
    DecimalRoundTrip(t / 60);
    DecimalRoundTrip(t % 60);
  }

  /** The backend's answer to a request of this screen. */
  datatype Reply = Done | Failed(message: Option<string>)

  /** `error.response?.data?.message || fallback`. */
  function MessageOr(message: Option<string>, fallback: string): (toast: string)
    ensures message.Some? && message.value != "" ==> toast == message.value
    ensures message.None? || message.value == "" ==> toast == fallback
  {
    if message.Some? && message.value != "" then message.value else fallback
  }

  datatype ResendOutcome =
    | Ignored                 // the countdown is still running; nothing is sent
    | Resent(toast: string)   // a new code was sent
    | ResendError(toast: string)

  /**
    `resendCode`, the backend's answer given as `reply`: nothing happens while
    the countdown runs; a successful re-send restarts it from 900 seconds and
    says so, a failed one leaves it at its value.
   */
  function ResendCode(timer: int, reply: Reply): (r: (int, ResendOutcome))
    ensures timer > 0 ==> r == (timer, Ignored)
    ensures timer <= 0 && reply.Done? ==> r == (ResendSeconds, Resent(CodeSent))
    ensures timer <= 0 && reply.Failed? ==> r == (timer, ResendError(MessageOr(reply.message, ResendFailed)))
  {
    if timer > 0 then (timer, Ignored)
    else match reply
      case Done => (ResendSeconds, Resent(CodeSent))
      case Failed(message) => (timer, ResendError(MessageOr(message, ResendFailed)))
  }

  datatype VerifyOutcome =
    | Incomplete(toast: string)   // the joined code is not six characters; nothing sent
    | Verified(token: string, toast: string)  // the activation request with this token succeeded
    | VerifyError(token: string, toast: string)

  /**
    `verifyCode`, the backend's answer given as `reply`: the cells joined
    must be exactly six characters long, and they are sent as the token.
   */
  function VerifyCode(code: seq<string>, reply: Reply): (outcome: VerifyOutcome)
    ensures outcome.Incomplete? <==> |Concat(code)| != CodeLength
    ensures outcome.Incomplete? ==> outcome.toast == IncompleteCode
    ensures outcome.Verified? <==> |Concat(code)| == CodeLength && reply.Done?
    ensures !outcome.Incomplete? ==> outcome.token == Concat(code)
    ensures outcome.Verified? ==> outcome.toast == EmailVerified
    ensures outcome.VerifyError? ==> outcome.toast == MessageOr(reply.message, VerificationFailed)
  {
    var token := Concat(code);
    if |token| != CodeLength then Incomplete(IncompleteCode)
    else match reply
      case Done => Verified(token, EmailVerified)
      case Failed(message) => VerifyError(token, MessageOr(message, VerificationFailed))
  }

  /** Each cell accepts at most one character (`maxLength={1}`). */
  predicate CellsAtMostOne(code: seq<string>)
  {
    forall k :: 0 <= k < |code| ==> |code[k]| <= 1
  }

  /** Joined cells of at most one character: as long as the number of cells, exactly when none is empty. */
  lemma {:induction false} ConcatLength(code: seq<string>)
    requires CellsAtMostOne(code)
    ensures |Concat(code)| <= |code|
    ensures |Concat(code)| == |code| <==> forall k :: 0 <= k < |code| ==> code[k] != ""
  {
    if code != [] {
      ConcatLength(code[1..]);
      assert forall k :: 1 <= k < |code| ==> code[k] == code[1..][k - 1];
    }
  }

  /** With one character per cell at most, the length check passes exactly when every cell is filled. */
  lemma CompleteIffAllFilled(code: seq<string>)
    requires WellFormedCode(code) && CellsAtMostOne(code)
    ensures !VerifyCode(code, Done).Incomplete? <==> forall k :: 0 <= k < |code| ==> code[k] != ""
  {
    ConcatLength(code);
  }
}
