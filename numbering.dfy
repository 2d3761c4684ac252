/**
 * The display number of a new ticket: the desk number with its "Bàn " label
 * removed, followed by the day's sequence number padded to three digits.
 */
module Numbering {

  /** The label that prefixes desk numbers ("Bàn " is Vietnamese for "desk "). */
  const DeskLabel: string := "Bàn "

  /** `s.replace("Bàn ", "")`: every occurrence, scanned left to right, is removed. */
  function RemoveLabel(s: string): (r: string)
    ensures |r| <= |s|
    ensures forall c :: c in r ==> c in s
    decreases |s|
  {
    if s == [] then []
    else if |DeskLabel| <= |s| && s[..|DeskLabel|] == DeskLabel then
      assert forall c :: c in s[|DeskLabel|..] ==> c in s;
      RemoveLabel(s[|DeskLabel|..])
    else
      assert s == [s[0]] + s[1..];
      [s[0]] + RemoveLabel(s[1..])
  }

  predicate HasLabelAt(s: string, i: int) {
    0 <= i && i + |DeskLabel| <= |s| && s[i..i + |DeskLabel|] == DeskLabel
  }

  /** A number that holds no label is left as it is. */
  lemma {:induction false} RemoveLabelWithoutLabel(s: string)
    requires forall i :: !HasLabelAt(s, i)
    ensures RemoveLabel(s) == s
    decreases |s|
  {
    if s != [] {
      assert !HasLabelAt(s, 0);
      forall i ensures !HasLabelAt(s[1..], i) {
        if HasLabelAt(s[1..], i) {
          assert s[1..][i..i + |DeskLabel|] == s[i + 1..i + 1 + |DeskLabel|];
          assert HasLabelAt(s, i + 1);
        }
      }
      RemoveLabelWithoutLabel(s[1..]);
    }
  }

  /** A leading label is dropped. */
  lemma RemoveLeadingLabel(s: string)
    ensures RemoveLabel(DeskLabel + s) == RemoveLabel(s)
  {
  }

  /** A label after label-free text is removed and the text before it kept. */
  lemma {:induction false} RemoveLabelAfterText(a: string, b: string)
    requires forall i :: 0 <= i < |a| ==> !HasLabelAt(a + DeskLabel + b, i)
    ensures RemoveLabel(a + DeskLabel + b) == a + RemoveLabel(b)
    decreases |a|
  {
    var s := a + DeskLabel + b;
    if a == [] {
      assert s == DeskLabel + b;
      RemoveLeadingLabel(b);
    } else {
      assert !HasLabelAt(s, 0);
      assert s[1..] == a[1..] + DeskLabel + b;
      forall i | 0 <= i < |a[1..]| ensures !HasLabelAt(a[1..] + DeskLabel + b, i) {
        if HasLabelAt(s[1..], i) {
          assert s[1..][i..i + |DeskLabel|] == s[i + 1..i + 1 + |DeskLabel|];
          assert HasLabelAt(s, i + 1);
        }
      }
      RemoveLabelAfterText(a[1..], b);
      assert a == [a[0]] + a[1..];
    }
  }

  predicate IsDigit(c: char) {
    '0' <= c <= '9'
  }

  predicate AllDigits(s: string) {
    forall i :: 0 <= i < |s| ==> IsDigit(s[i])
  }

  function DigitChar(d: nat): (c: char)
    requires d < 10
    ensures IsDigit(c) && c as int - '0' as int == d
  {
    ['0', '1', '2', '3', '4', '5', '6', '7', '8', '9'][d]
  }

  /** The decimal representation of `n`, without leading zeros. */
  function Decimal(n: nat): (s: string)
    ensures 1 <= |s| && AllDigits(s)
    ensures n < 10 <==> |s| == 1
    ensures n > 0 ==> s[0] != '0'
    decreases n
  {
    if n < 10 then [DigitChar(n)] else Decimal(n / 10) + [DigitChar(n % 10)]
  }

  function Zeros(k: nat): (s: string)
    ensures |s| == k && AllDigits(s)
  {
    seq(k, _ => '0')
  }

  /** `f"{n:03d}"`: the decimal representation, left-padded with zeros to at least three digits. */
  function Pad3(n: nat): (s: string)
    ensures AllDigits(s)
    ensures |s| == if |Decimal(n)| < 3 then 3 else |Decimal(n)|
    ensures |s| == 3 || s[0] != '0'
  {
    var d := Decimal(n);
    if |d| < 3 then Zeros(3 - |d|) + d else d
  }

  /** Reads a string of digits back as a number. */
  function ParseDecimal(s: string): nat
    requires AllDigits(s)
    decreases |s|
  {
    if s == [] then 0
    else ParseDecimal(s[..|s| - 1]) * 10 + (s[|s| - 1] as int - '0' as int)
  }

  lemma {:induction false} ParseDecimalOfDecimal(n: nat)
    ensures ParseDecimal(Decimal(n)) == n
    decreases n
  {
    if n >= 10 {
      var s := Decimal(n);
      assert s[..|s| - 1] == Decimal(n / 10);
      ParseDecimalOfDecimal(n / 10);
    }
  }

  lemma {:induction false} ParseDecimalIgnoresZeros(k: nat, s: string)
    requires AllDigits(s)
    ensures ParseDecimal(Zeros(k) + s) == ParseDecimal(s)
    decreases |s|, k
  {
    if s == [] {
      assert Zeros(k) + s == Zeros(k);
      if k > 0 {
        assert Zeros(k)[..k - 1] == Zeros(k - 1);
        ParseDecimalIgnoresZeros(k - 1, []);
        assert Zeros(k - 1) + [] == Zeros(k - 1);
      }
    } else {
      var t := Zeros(k) + s;
      assert t[..|t| - 1] == Zeros(k) + s[..|s| - 1];
      ParseDecimalIgnoresZeros(k, s[..|s| - 1]);
    }
  }

  /** The padded sequence number reads back as the number itself. */
  lemma Pad3RoundTrip(n: nat)
    ensures ParseDecimal(Pad3(n)) == n
  {
    ParseDecimalOfDecimal(n);
    if |Decimal(n)| < 3 {
      ParseDecimalIgnoresZeros(3 - |Decimal(n)|, Decimal(n));
    }
  }

  /**
   * The number `add_to_queue` gives a desk's next ticket, after `todayCount`
   * tickets were already created for that desk today. It starts with the desk
   * number stripped of its label and its tail reads back as `todayCount + 1`.
   */
  function QueueNumber(deskNumber: string, todayCount: nat): (q: string)
    ensures var prefix := RemoveLabel(deskNumber);
            && |prefix| + 3 <= |q| && q[..|prefix|] == prefix
            && AllDigits(q[|prefix|..]) && ParseDecimal(q[|prefix|..]) == todayCount + 1
            && (|q| == |prefix| + 3 || q[|prefix|] != '0')
  {
    var prefix := RemoveLabel(deskNumber);
    var q := prefix + Pad3(todayCount + 1);
    assert q[|prefix|..] == Pad3(todayCount + 1);
    Pad3RoundTrip(todayCount + 1);
    q
  }

  /** Two tickets of one desk with different day counts get different numbers. */
  lemma QueueNumberInjective(deskNumber: string, c1: nat, c2: nat)
    requires QueueNumber(deskNumber, c1) == QueueNumber(deskNumber, c2)
    ensures c1 == c2
  {
  }

  /** The worked example: desk "Bàn 7" with four tickets already today gives "7005". */
  lemma QueueNumberExample()
    ensures QueueNumber("Bàn 7", 4) == "7005"
  {
  }
}
