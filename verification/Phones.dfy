/** canonicalPhone: from what a customer types, or a WhatsApp chat id, to the
    eight or nine digits under which a contact is stored. */
module Phones {
  import opened Types

  predicate Digit(c: char) {
    '0' <= c <= '9'
  }

  /** The characters a typed number may hold: digits, plus, dot, hyphen,
      parentheses and white space. */
  predicate Typed(c: char) {
    Digit(c) || c in {'+', '.', '-', '(', ')'} || Blank(c)
  }

  predicate AllTyped(s: string) {
    forall i :: 0 <= i < |s| ==> Typed(s[i])
  }

  predicate EndsWith(s: string, t: string) {
    |t| <= |s| && s[|s| - |t|..] == t
  }

  const CUS := "@c.us"
  const NET := "@s.whatsapp.net"

  /** The typed part, without an allowed chat suffix; None where the source
      rejects the text. A LID chat id is one of the rejected texts: its "@lid"
      is neither typed nor one of the two suffixes. */
  function TypedPart(value: string): Option<string> {
    var body :=
      if EndsWith(value, CUS) then value[..|value| - |CUS|]
      else if EndsWith(value, NET) then value[..|value| - |NET|]
      else value;
    if body == "" || !AllTyped(body) then None else Some(body)
  }

  function Digits(s: string): (d: string)
    ensures forall i :: 0 <= i < |d| ==> Digit(d[i])
  {
    if s == "" then "" else (if Digit(s[0]) then [s[0]] else "") + Digits(s[1..])
  }

  /** Drops the country code, in either spelling, and then one leading zero. */
  function Local(d: string): string {
    var s := if "00972" <= d then d[5..] else if "972" <= d then d[3..] else d;
    if "0" <= s then s[1..] else s
  }

  predicate Canonical(s: string) {
    8 <= |s| <= 9 && '2' <= s[0] <= '9' && forall i :: 0 <= i < |s| ==> Digit(s[i])
  }

  function CanonicalPhone(value: string): Option<Phone> {
    match TypedPart(value)
    case None => None
    case Some(body) =>
      var s := Local(Digits(body));
      if Canonical(s) then Some(s) else None
  }

  lemma {:induction false} DigitsOfDigits(s: string)
    requires forall i :: 0 <= i < |s| ==> Digit(s[i])
    ensures Digits(s) == s
  {
    if s == "" {
    } else {
      DigitsOfDigits(s[1..]);
      assert s == [s[0]] + s[1..];
    }
  }

  /** All that is accepted is eight or nine digits from 2..9 on. */
  lemma ResultIsCanonical(value: string)
    ensures CanonicalPhone(value).Some? ==> Canonical(CanonicalPhone(value).value)
  {}

  lemma DigitsAreTyped(d: string)
    requires d != "" && forall i :: 0 <= i < |d| ==> Digit(d[i])
    ensures TypedPart(d) == Some(d)
    ensures TypedPart(d + CUS) == Some(d)
  {
    assert (d + CUS)[..|d|] == d && (d + CUS)[|d|..] == CUS;
    if |d| >= |CUS| { assert d[|d| - |CUS|..][0] != '@'; }
    if |d| >= |NET| { assert d[|d| - |NET|..][0] != '@'; }
  }

  lemma LocalDropsPrefix(pre: string, phone: Phone)
    requires Canonical(phone) && pre in {"0", "972", "00972"}
    ensures Local(pre + phone) == phone
  {
    var d := pre + phone;
    assert d[..|pre|] == pre && d[|pre|..] == phone;
    assert phone[0] != '0';
    assert d[0] == pre[0];
    match pre {
      case "00972" =>
      case "972" =>
        assert !("00972" <= d);
      case _ =>
        assert d[1] == phone[0];
        assert !("00972" <= d) && !("972" <= d);
        assert "0" <= d;
    }
  }

  lemma Prefixed(pre: string, phone: Phone)
    requires Canonical(phone) && pre in {"0", "972", "00972"}
    ensures CanonicalPhone(pre + phone) == Some(phone)
    ensures CanonicalPhone(pre + phone + CUS) == Some(phone)
  {
    var d := pre + phone;
    assert forall i :: 0 <= i < |pre| ==> Digit(pre[i]);
    assert forall i :: 0 <= i < |d| ==> Digit(d[i]);
    LocalDropsPrefix(pre, phone);
    DigitsAreTyped(d);
    DigitsOfDigits(d);
  }

  /** A stored phone survives the trip through the chat id the outbox builds
      from it, and through the ways people write it. */
  lemma RoundTrip(phone: Phone)
    requires Canonical(phone)
    ensures CanonicalPhone("972" + phone + CUS) == Some(phone)
    ensures CanonicalPhone("00972" + phone) == Some(phone)
    ensures CanonicalPhone("972" + phone) == Some(phone)
    ensures CanonicalPhone("0" + phone) == Some(phone)
  {
    Prefixed("0", phone);
    Prefixed("972", phone);
    Prefixed("00972", phone);
  }

  /** Canonical form is a fixed point exactly when it does not itself begin
      with the country code. */
  lemma IdempotentIff(phone: Phone)
    requires Canonical(phone)
    ensures CanonicalPhone(phone) == Some(phone) <==> !("972" <= phone)
    ensures "972" <= phone ==> CanonicalPhone(phone) == None
  {
    DigitsAreTyped(phone);
    DigitsOfDigits(phone);
    assert phone[0] != '0';
    if "972" <= phone { assert |Local(phone)| <= 6; }
  }

  /** A number the source accepts and then rejects in its own canonical form. */
  lemma NotIdempotent()
    ensures var phone := "972123456";
            CanonicalPhone("0" + phone) == Some(phone) && CanonicalPhone(phone) == None
  {
    var phone := "972123456";
    assert Canonical(phone);
    RoundTrip(phone);
    assert phone[..3] == "972";
    IdempotentIff(phone);
  }
}
