/**
 * The two rules both campaign dialogs apply when they build a campaign:
 * the message total read from the free-text audience field, and the
 * status and next-send text chosen by whether a start date was given.
 */
module Campaign {
  import opened Strings

  /** Digit strings up to this length denote integers a JavaScript number holds exactly. */
  const MaxExactDigits := 15

  /**
   * `parseInt(audience.replace(/\D/g, '')) || 100`: the number formed by
   * every digit of the audience text, or 100 when it has no digit
   * (`parseInt("")` is NaN) or the digits read as 0.
   */
  function TotalMessages(audience: string): (n: nat)
    requires |Digits(audience)| <= MaxExactDigits
    ensures n >= 1
    ensures Digits(audience) != [] && Value(Digits(audience)) != 0 ==> n == Value(Digits(audience))
    ensures Digits(audience) == [] || Value(Digits(audience)) == 0 ==> n == 100
    ensures n != 100 ==> Digits(audience) != []
  {
    var d := Digits(audience);
    if d == [] then 100
    else if Value(d) == 0 then 100
    else Value(d)
  }

  /**
   * A count written as a number followed by text without digits, such as
   * "850 clientes", gives back that number.
   */
  lemma AudienceCount(n: nat, suffix: string)
    requires 1 <= n && |NatToString(n)| <= MaxExactDigits
    requires Digits(suffix) == []
    ensures |Digits(NatToString(n) + suffix)| <= MaxExactDigits
    ensures TotalMessages(NatToString(n) + suffix) == n
  {
    var d := NatToString(n);
    DigitsAppend(d, suffix);
    DigitsOfDigitString(d);
    assert Digits(d + suffix) == d + [] == d;
    ValueOfNatToString(n);
  }

  /** Text with no digit at all gives the default of 100. */
  lemma NoDigitsDefault(audience: string)
    requires forall i :: 0 <= i < |audience| ==> !IsDigit(audience[i])
    ensures Digits(audience) == [] && TotalMessages(audience) == 100
  {
    NoDigits(audience);
  }

  lemma {:induction false} NoDigits(s: string)
    requires forall i :: 0 <= i < |s| ==> !IsDigit(s[i])
    ensures Digits(s) == []
  {
    if s != [] {
      NoDigits(s[1..]);
    }
  }

  /** Digits followed by text without digits: the digits' value, unless it is 0. */
  lemma AudienceOfDigits(d: string, suffix: string)
    requires AllDigits(d) && |d| <= MaxExactDigits && Value(d) != 0
    requires Digits(suffix) == []
    ensures |Digits(d + suffix)| <= MaxExactDigits
    ensures TotalMessages(d + suffix) == Value(d)
  {
    DigitsAppend(d, suffix);
    DigitsOfDigitString(d);
    assert Digits(d + suffix) == d + [] == d;
  }

  /** The example the audience field suggests: "850 clientes" means 850 messages. */
  lemma EightHundredFifty()
    ensures |Digits("850" + " clientes")| <= MaxExactDigits
    ensures TotalMessages("850" + " clientes") == 850
  {
    ValueOf850();
    NoDigits(" clientes");
    AudienceOfDigits("850", " clientes");
  }

  lemma ValueOf850()
    ensures AllDigits("850") && Value("850") == 850
  {
    var d := "850";
    var d1, d2 := d[..1], d[..2];
    assert d1[..0] == [] && d2[..1] == d1 && d[..2] == d2;
    assert Value(d1) == 8;
    assert Value(d2) == 85;
  }

  /** An audience of zero falls back to 100, as `0 || 100` does. */
  lemma ZeroAudience(zeros: string, suffix: string)
    requires zeros != [] && forall i :: 0 <= i < |zeros| ==> zeros[i] == '0'
    requires |zeros| <= MaxExactDigits && Digits(suffix) == []
    ensures |Digits(zeros + suffix)| <= MaxExactDigits
    ensures TotalMessages(zeros + suffix) == 100
  {
    ZerosValue(zeros);
    DigitsAppend(zeros, suffix);
    DigitsOfDigitString(zeros);
    assert Digits(zeros + suffix) == zeros + [] == zeros;
  }

  lemma {:induction false} ZerosValue(zeros: string)
    requires forall i :: 0 <= i < |zeros| ==> zeros[i] == '0'
    ensures AllDigits(zeros) && Value(zeros) == 0
  {
    if zeros != [] {
      ZerosValue(zeros[..|zeros| - 1]);
    }
  }

  /** A campaign is scheduled when it has a start date and active (sending now) otherwise. */
  datatype CampaignStatus = Scheduled | Active

  /** `scheduledDate ? "scheduled" : "active"`. */
  function StatusFor(scheduledDate: string): (st: CampaignStatus)
    ensures st == Scheduled <==> scheduledDate != []
  {
    if scheduledDate != [] then Scheduled else Active
  }

  /** `scheduledDate ? `${scheduledDate} ${scheduledTime}` : "Agora"`. */
  function NextSend(scheduledDate: string, scheduledTime: string): (r: string)
    ensures scheduledDate != [] ==> |r| > |scheduledDate| && r[..|scheduledDate|] == scheduledDate && r[|scheduledDate|] == ' '
    ensures scheduledDate != [] ==> r[|scheduledDate| + 1..] == scheduledTime
    ensures scheduledDate == [] ==> r == "Agora"
  {
    if scheduledDate != [] then scheduledDate + " " + scheduledTime else "Agora"
  }

  /** The next-send text says "Agora" exactly when the campaign is active, so the two never disagree. */
  lemma NextSendAgreesWithStatus(scheduledDate: string, scheduledTime: string)
    ensures NextSend(scheduledDate, scheduledTime) == "Agora" <==> StatusFor(scheduledDate) == Active
  {
    if scheduledDate != [] {
      var r := NextSend(scheduledDate, scheduledTime);
      assert ' ' in r by { assert r[|scheduledDate|] == ' '; }
      assert ' ' !in "Agora";
    }
  }
}
