/** All the ways to write a number that canonicalPhone accepts, and no others. */
module PhoneSpellings {
  import opened Types
  import opened Phones

  /** What may be typed between the digits. */
  predicate Separates(c: char) {
    c in {'+', '.', '-', '(', ')'} || Blank(c)
  }

  predicate Plain(s: string) {
    s != "" && forall i :: 0 <= i < |s| ==> '0' <= s[i] <= '9' || Separates(s[i])
  }

  /** In front of the stored digits: nothing, a zero, or the country code in either
      spelling, also with the zero kept after it. */
  predicate Prefix(pre: string) {
    pre in {"", "0", "972", "9720", "00972", "009720"}
  }

  predicate Stored(phone: Phone) {
    8 <= |phone| <= 9 && '2' <= phone[0] <= '9' && forall i :: 0 <= i < |phone| ==> '0' <= phone[i] <= '9'
  }

  function AsDigit(c: char): string {
    if '0' <= c <= '9' then [c] else ""
  }

  lemma DigitsOfCons(c: char, s: string)
    ensures Digits([c] + s) == AsDigit(c) + Digits(s)
  {
    assert ([c] + s)[1..] == s;
  }

  lemma Associate(a: string, b: string, c: string)
    ensures a + (b + c) == a + b + c
  {}

  /** The digits of a text, whatever way it is cut. */
  lemma {:induction false} DigitsOfParts(a: string, b: string)
    ensures Digits(a + b) == Digits(a) + Digits(b)
  {
    if a == "" {
      assert a + b == b;
    } else {
      var c, rest := a[0], a[1..];
      assert a == [c] + rest;
      Associate([c], rest, b);
      DigitsOfCons(c, rest);
      DigitsOfCons(c, rest + b);
      DigitsOfParts(rest, b);
      Associate(AsDigit(c), Digits(rest), Digits(b));
    }
  }

  /** body is what is left of value without a chat suffix. */
  predicate BodyOf(value: string, body: string) {
    value in {body, body + "@c.us", body + "@s.whatsapp.net"}
  }

  /** value spells phone: separators aside, a prefix and the stored digits, which
      must not look like a number with its country code when there is no prefix. */
  predicate Spells(value: string, phone: Phone, body: string, pre: string) {
    && BodyOf(value, body) && Plain(body) && Prefix(pre) && Stored(phone)
    && Digits(body) == pre + phone && (pre == "" ==> !("972" <= phone))
  }

  lemma PlainIsTyped(body: string)
    ensures Plain(body) <==> body != "" && AllTyped(body)
  {
    forall i | 0 <= i < |body| ensures Typed(body[i]) <==> '0' <= body[i] <= '9' || Separates(body[i]) {}
  }

  lemma Suffixed(body: string, suffix: string)
    ensures EndsWith(body + suffix, suffix) && (body + suffix)[..|body|] == body
  {
    assert (body + suffix)[|body|..] == suffix;
  }

  lemma EndsOtherwise(s: string, t: string)
    requires s != "" && t != "" && s[|s| - 1] != t[|t| - 1]
    ensures !EndsWith(s, t)
  {
    if |t| <= |s| { assert s[|s| - |t|..][|t| - 1] == s[|s| - 1]; }
  }

  /** The suffix is found, and nothing else is taken for one. */
  lemma BodyIsFound(value: string, body: string)
    requires BodyOf(value, body) && Plain(body)
    ensures TypedPart(value) == Some(body)
  {
    PlainIsTyped(body);
    if value == body {
      assert Typed(body[|body| - 1]);
      EndsOtherwise(body, CUS);
      EndsOtherwise(body, NET);
    } else if value == body + CUS {
      Suffixed(body, CUS);
    } else {
      Suffixed(body, NET);
      EndsOtherwise(value, CUS);
    }
  }

  lemma FoundIsBody(value: string)
    requires TypedPart(value).Some?
    ensures BodyOf(value, TypedPart(value).value) && Plain(TypedPart(value).value)
  {
    PlainIsTyped(TypedPart(value).value);
    if EndsWith(value, CUS) {
      assert value == value[..|value| - |CUS|] + CUS;
    } else if EndsWith(value, NET) {
      assert value == value[..|value| - |NET|] + NET;
    }
  }

  lemma StoredIsCanonical(phone: Phone)
    ensures Stored(phone) <==> Canonical(phone)
  {}

  lemma Cut(a: string, b: string)
    ensures (a + b)[|a|..] == b && a <= a + b
  {}

  lemma NothingIsDropped(phone: Phone)
    requires Stored(phone) && !("972" <= phone)
    ensures Local(phone) == phone
  {
    assert phone[0] != '0';
  }

  /** Dropping the prefix leaves the stored digits. */
  lemma PrefixIsDropped(pre: string, phone: Phone)
    requires Prefix(pre) && Stored(phone) && (pre == "" ==> !("972" <= phone))
    ensures Local(pre + phone) == phone
  {
    StoredIsCanonical(phone);
    if pre == "" {
      assert pre + phone == phone;
      NothingIsDropped(phone);
    } else if pre in {"0", "972", "00972"} {
      LocalDropsPrefix(pre, phone);
    } else {
      var code := if pre == "9720" then "972" else "00972";
      assert pre == code + "0";
      ZeroIsDropped(code, phone);
      Associate(code, "0", phone);
    }
  }

  lemma ZeroIsDropped(code: string, phone: Phone)
    requires code in {"972", "00972"} && Stored(phone)
    ensures Local(code + ("0" + phone)) == phone
  {
    var d := code + ("0" + phone);
    Cut(code, "0" + phone);
    Cut("0", phone);
    assert d[0] == code[0];
    assert ("0" + phone)[1..] == phone;
  }

  function AfterCode(d: string): string {
    if "00972" <= d then d[5..] else if "972" <= d then d[3..] else d
  }

  lemma CodeCut(d: string) returns (code: string)
    ensures code in {"", "972", "00972"} && d == code + AfterCode(d) && (code == "" ==> !("972" <= d))
  {
    code := if "00972" <= d then "00972" else if "972" <= d then "972" else "";
  }

  lemma ZeroCut(s: string) returns (zero: string)
    ensures zero in {"", "0"} && s == zero + if "0" <= s then s[1..] else s
  {
    zero := if "0" <= s then "0" else "";
  }

  lemma Prefixes(code: string, zero: string)
    requires code in {"", "972", "00972"} && zero in {"", "0"}
    ensures Prefix(code + zero) && (code + zero == "" ==> code == "")
  {
    assert "" + "0" == "0" && "972" + "0" == "9720" && "00972" + "0" == "009720";
    assert code + "" == code;
  }

  /** And what is left when something is dropped was behind a prefix. */
  lemma DroppedIsPrefix(d: string) returns (pre: string)
    ensures Prefix(pre) && d == pre + Local(d) && (pre == "" ==> !("972" <= d))
  {
    var code := CodeCut(d);
    var zero := ZeroCut(AfterCode(d));
    Prefixes(code, zero);
    pre := code + zero;
  }

  /** A text is accepted for a number exactly when it spells it. */
  lemma AcceptedExactly(value: string, phone: Phone)
    ensures CanonicalPhone(value) == Some(phone) <==> exists body, pre :: Spells(value, phone, body, pre)
  {
    if CanonicalPhone(value) == Some(phone) {
      FoundIsBody(value);
      StoredIsCanonical(phone);
      var pre := DroppedIsPrefix(Digits(TypedPart(value).value));
      assert Spells(value, phone, TypedPart(value).value, pre);
    }
    if body, pre :| Spells(value, phone, body, pre) {
      BodyIsFound(value, body);
      PrefixIsDropped(pre, phone);
      StoredIsCanonical(phone);
    }
  }
}
