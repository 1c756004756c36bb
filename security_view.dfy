/** The security officer's gate terminal: a code is typed either into six
    one-character slots or into one digit-only field, then verified against the
    accepted codes; a free pass with a chosen justification grants exit without
    a code. The 1.2 s and 1 s timers of the two handlers become a Begin step
    (what the click does at once) and a Complete step (what the timer callback
    does later). */
module SecurityView {
  import opened JsRuntime

  /** Number of slots in the structured entry, and the manual field's maxLength. */
  const SlotCount: nat := 6

  /** The code the free pass writes into the terminal. */
  const BypassCode: string := "BYPASS"

  /** The codes verification accepts: one from the student seed data, one generic. */
  function IsAcceptedCode(code: string): (accepted: bool)
    ensures accepted ==> |code| == SlotCount && AllDigits(code)
  {
    code == "742910" || code == "123456"
  }

  datatype Status = Idle | Verifying | Success | Error

  datatype EntryMode = Structured | Manual

  // ---------------------------------------------------------------------------
  // the pure parts of verification and entry

  /** `code.replace(/\s/g, '')`. */
  function Normalize(code: string): (r: string)
    ensures forall i :: 0 <= i < |r| ==> !IsWhitespace(r[i])
  {
    Filter(code, IsNotWhitespace)
  }

  /** The verdict the verification timer writes for the code it captured. */
  function VerifyOutcome(code: string): (s: Status)
    ensures s == Success || s == Error
  {
    if IsAcceptedCode(Normalize(code)) then Success else Error
  }

  /** Removing all whitespace leaves nothing more to remove. */
  lemma NormalizeIdempotent(code: string)
    ensures Normalize(Normalize(code)) == Normalize(code)
  {
    FilterIdempotent(code, IsNotWhitespace);
  }

  /** Inserting a whitespace character anywhere leaves the normalised code as it was. */
  lemma NormalizeDropsInsertedWhitespace(before: string, after: string, w: char)
    requires IsWhitespace(w)
    ensures Normalize(before + [w] + after) == Normalize(before + after)
  {
    var strip := Filter(before, IsNotWhitespace);
    assert Filter([w], IsNotWhitespace) == [] by {
      assert [w][1..] == [];
    }
    calc {
      Normalize(before + [w] + after);
    ==  { FilterConcat(before + [w], after, IsNotWhitespace); }
      Filter(before + [w], IsNotWhitespace) + Filter(after, IsNotWhitespace);
    ==  { FilterConcat(before, [w], IsNotWhitespace); }
      strip + Filter(after, IsNotWhitespace);
    ==  { FilterConcat(before, after, IsNotWhitespace); }
      Normalize(before + after);
    }
  }

  /** Inserting a whitespace character anywhere never changes the verdict. */
  lemma VerifyIgnoresInsertedWhitespace(before: string, after: string, w: char)
    requires IsWhitespace(w)
    ensures VerifyOutcome(before + [w] + after) == VerifyOutcome(before + after)
  {
    NormalizeDropsInsertedWhitespace(before, after, w);
  }

  /** A code of digits only (what manual entry produces) is accepted exactly
      when it is one of the accepted codes as it stands. */
  lemma DigitCodeVerdict(code: string)
    requires AllDigits(code)
    ensures VerifyOutcome(code) == Success <==> IsAcceptedCode(code)
  {
    FilterIdentity(code, IsNotWhitespace);
  }

  /** A code that manual entry can leave in the terminal, digits or the bypass
      code, is accepted exactly when it is an accepted code as it stands. */
  lemma ManualCodeVerdict(code: string)
    ensures AllDigits(code) || code == BypassCode ==>
      (VerifyOutcome(code) == Success <==> IsAcceptedCode(code))
  {
    if AllDigits(code) {
      DigitCodeVerdict(code);
    } else if code == BypassCode {
      BypassCodeNotAccepted();
    }
  }

  /** The code the free pass leaves in the terminal is not itself accepted. */
  lemma BypassCodeNotAccepted()
    ensures VerifyOutcome(BypassCode) == Error
  {
    FilterIdentity(BypassCode, IsNotWhitespace);
  }

  /** The slot input's state updater: split the previous code into characters,
      push spaces until there are six, overwrite slot `i`, join. */
  method FillSlot(prev: string, i: nat, v: char) returns (next: string)
    requires i < SlotCount
    ensures |next| == if |prev| < SlotCount then SlotCount else |prev|
    ensures next[i] == v
    ensures forall k :: 0 <= k < |prev| && k != i ==> next[k] == prev[k]
    ensures forall k :: |prev| <= k < |next| && k != i ==> next[k] == ' '
  {
    var chars := prev;
    while |chars| < SlotCount
      invariant |prev| <= |chars| <= if |prev| < SlotCount then SlotCount else |prev|
      invariant chars[..|prev|] == prev
      invariant forall k :: |prev| <= k < |chars| ==> chars[k] == ' '
    {
      chars := chars + [' '];
    }
    chars := chars[i := v];
    next := chars;
  }

  /** The manual field's handler: `raw.replace(/[^0-9]/g, '')`. */
  function DigitsOf(raw: string): (r: string)
    ensures AllDigits(r) && |r| <= |raw|
  {
    Filter(raw, IsDigit)
  }

  /** The digits survive in the order typed, and typing only digits changes nothing. */
  lemma DigitsOfKeepsOrder(a: string, b: string)
    ensures DigitsOf(a + b) == DigitsOf(a) + DigitsOf(b)
    ensures DigitsOf(a) == a <==> AllDigits(a)
  {
    FilterConcat(a, b, IsDigit);
    FilterIdentity(a, IsDigit);
  }

  // ---------------------------------------------------------------------------
  // the terminal's state

  class GateTerminal {
    var otp: string
    var status: Status
    var entryMode: EntryMode
    var showFreePassModal: bool
    var freePassReason: string

    /** What every reachable state satisfies: the code never exceeds six
        characters, and in manual mode it is digits, or the bypass code; so in
        manual mode the verdict is decided by the code exactly as shown. */
    ghost predicate Valid()
      reads this
      ensures Valid() && entryMode == Manual ==>
        (VerifyOutcome(otp) == Success <==> IsAcceptedCode(otp))
    {
      ManualCodeVerdict(otp);
      && |otp| <= SlotCount
      && (entryMode == Manual ==> AllDigits(otp) || otp == BypassCode)
    }

    constructor ()
      ensures Valid()
      ensures otp == "" && status == Idle && entryMode == Structured
      ensures !showFreePassModal && freePassReason == ""
    {
      otp := "";
      status := Idle;
      entryMode := Structured;
      showFreePassModal := false;
      freePassReason := "";
    }

    /** The "Authorize Exit" button is enabled: nothing is verifying and the code
        is long enough for the mode; then the click handler's own guard passes. */
    function AuthorizeEnabled(): (enabled: bool)
      reads this
      ensures enabled ==> status != Verifying
      ensures enabled ==> !(|otp| < SlotCount && entryMode == Manual)
      ensures enabled ==> |otp| >= 1
    {
      status != Verifying && |otp| >= (if entryMode == Manual then SlotCount else 1)
    }

    /** The click on "Authorize Exit": in manual mode a code shorter than six
        characters does nothing; otherwise the status becomes verifying and the
        timer is armed with the code as it is now, which is returned. */
    method BeginVerify() returns (captured: Option<string>)
      requires Valid()
      modifies this`status
      ensures Valid()
      ensures captured.None? <==> |otp| < SlotCount && entryMode == Manual
      ensures captured.Some? ==> captured.value == otp && status == Verifying
      ensures captured.None? ==> status == old(status)
    {
      if |otp| < SlotCount && entryMode == Manual {
        return None;
      }
      status := Verifying;
      captured := Some(otp);
    }

    /** The verification timer firing with the code it captured: success exactly
        for an accepted code once whitespace is removed, error otherwise. The
        code and everything else are left as they are. */
    method CompleteVerify(captured: string)
      requires Valid()
      modifies this`status
      ensures Valid()
      ensures status == VerifyOutcome(captured)
      ensures status == Success <==> IsAcceptedCode(Normalize(captured))
    {
      status := VerifyOutcome(captured);
    }

    /** A character typed into slot `i` of the structured entry; an empty input
        (a deleted character) changes nothing. */
    method TypeIntoSlot(i: nat, value: string)
      requires i < SlotCount && |value| <= 1
      requires Valid() && entryMode == Structured
      modifies this`otp
      ensures Valid()
      ensures value == "" ==> otp == old(otp)
      ensures value != "" ==> |otp| == SlotCount && otp[i] == value[0]
      ensures value != "" ==> forall k :: 0 <= k < SlotCount && k != i ==>
        otp[k] == if k < |old(otp)| then old(otp)[k] else ' '
    {
      if value != "" {
        otp := FillSlot(otp, i, value[0]);
      }
    }

    /** The manual field's change event; the field's maxLength bounds `raw`. */
    method TypeManually(raw: string)
      requires |raw| <= SlotCount
      requires Valid() && entryMode == Manual
      modifies this`otp
      ensures Valid()
      ensures otp == DigitsOf(raw)
    {
      otp := DigitsOf(raw);
    }

    /** The "Structured" and "Manual Entry" buttons: switch mode, empty the code. */
    method SetEntryMode(mode: EntryMode)
      requires Valid()
      modifies this`entryMode, this`otp
      ensures Valid()
      ensures entryMode == mode && otp == ""
    {
      entryMode := mode;
      otp := "";
    }

    /** "Clear Terminal": back to idle with an empty code. */
    method ClearTerminal()
      requires Valid()
      modifies this`status, this`otp
      ensures Valid()
      ensures status == Idle && otp == ""
    {
      status := Idle;
      otp := "";
    }

    /** The override link opens the free-pass dialog. */
    method OpenFreePass()
      requires Valid()
      modifies this`showFreePassModal
      ensures Valid()
      ensures showFreePassModal
    {
      showFreePassModal := true;
    }

    /** The dialog's close button. */
    method CloseFreePass()
      requires Valid()
      modifies this`showFreePassModal
      ensures Valid()
      ensures !showFreePassModal
    {
      showFreePassModal := false;
    }

    /** The justification select's change event. */
    method ChooseReason(reason: string)
      requires Valid()
      modifies this`freePassReason
      ensures Valid()
      ensures freePassReason == reason
    {
      freePassReason := reason;
    }

    /** The click on "Force Authorization": a blank justification does nothing;
        otherwise the status becomes verifying and the timer is armed. */
    method BeginFreePass() returns (started: bool)
      requires Valid()
      modifies this`status
      ensures Valid()
      ensures started <==> !IsBlank(freePassReason)
      ensures started ==> status == Verifying
      ensures !started ==> status == old(status)
    {
      TrimEmptyIffBlank(freePassReason);
      if Trim(freePassReason) == "" {
        return false;
      }
      status := Verifying;
      started := true;
    }

    /** The free-pass timer firing: access granted, dialog closed, reason
        cleared, and the bypass code shown as the terminal's code. */
    method CompleteFreePass()
      requires Valid()
      modifies this`status, this`showFreePassModal, this`freePassReason, this`otp
      ensures Valid()
      ensures status == Success && !showFreePassModal && freePassReason == ""
      ensures otp == BypassCode
    {
      status := Success;
      showFreePassModal := false;
      freePassReason := "";
      otp := BypassCode;
    }
  }

  /** A code entered by hand and verified: the terminal reports success exactly
      when the digits typed (at most six of them) form an accepted code. */
  lemma ManualEntryVerdict(raw: string)
    requires |raw| <= SlotCount
    ensures |DigitsOf(raw)| <= SlotCount
    ensures VerifyOutcome(DigitsOf(raw)) == Success <==> IsAcceptedCode(DigitsOf(raw))
  {
    DigitCodeVerdict(DigitsOf(raw));
  }
}
