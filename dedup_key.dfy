/**
  The duplicate-detection key of the forwarding server: the decimal rendering of
  the query ID, a dash, and the rendering of the sender's endpoint.
  The key is injective because the decimal rendering never contains a dash and
  the decimal port never contains a colon.
 */
module DedupKey {
  import opened Basics

  /** A UDP endpoint. `host` is the address as `IPEndPoint` renders it in front of
      the last colon (an IPv6 address carries its brackets). */
  datatype Endpoint = Endpoint(host: string, port: uint16)

  predicate IsDigit(c: char) {
    '0' <= c <= '9'
  }

  predicate AllDigits(s: string) {
    forall i :: 0 <= i < |s| ==> IsDigit(s[i])
  }

  function DigitChar(d: nat): (c: char)
    requires d < 10
    ensures IsDigit(c)
  {
    (('0' as int) + d) as char
  }

  function DigitValue(c: char): (d: nat)
    requires IsDigit(c)
    ensures d < 10 && DigitChar(d) == c
  {
    (c as int) - ('0' as int)
  }

  /** `n.ToString()` for an unsigned integer: digits only, no leading zero. */
  function Decimal(n: nat): (s: string)
    ensures |s| >= 1 && AllDigits(s)
    ensures s[0] == '0' ==> n == 0 && |s| == 1
  {
    if n < 10 then [DigitChar(n)] else Decimal(n / 10) + [DigitChar(n % 10)]
  }

  /** Reads a string of digits back as a number; the inverse of `Decimal`. */
  function ParseDecimal(s: string): (n: nat)
    requires AllDigits(s)
  {
    if s == [] then 0 else ParseDecimal(s[..|s| - 1]) * 10 + DigitValue(s[|s| - 1])
  }

  lemma {:induction false} ParseDecimalOfDecimal(n: nat)
    ensures ParseDecimal(Decimal(n)) == n
  {
    var s := Decimal(n);
    if n < 10 {
      assert s[..|s| - 1] == [];
    } else {
      assert s[..|s| - 1] == Decimal(n / 10);
      ParseDecimalOfDecimal(n / 10);
    }
  }

  /** A non-empty digit string that does not start with '0' denotes a positive number. */
  lemma {:induction false} ParsePositive(s: string)
    requires |s| >= 1 && AllDigits(s) && s[0] != '0'
    ensures ParseDecimal(s) >= 1
  {
    if |s| > 1 {
      ParsePositive(s[..|s| - 1]);
    }
  }

  /** Every canonical digit string (no leading zero) is the rendering of the number it denotes. */
  lemma {:induction false} DecimalOfParseDecimal(s: string)
    requires |s| >= 1 && AllDigits(s)
    requires s[0] == '0' ==> |s| == 1
    ensures Decimal(ParseDecimal(s)) == s
  {
    var init := s[..|s| - 1];
    var d := DigitValue(s[|s| - 1]);
    if |s| == 1 {
      assert init == [];
    } else {
      ParsePositive(init);
      DecimalOfParseDecimal(init);
      var n := ParseDecimal(s);
      assert n / 10 == ParseDecimal(init) && n % 10 == d;
      assert s == init + [s[|s| - 1]];
    }
  }

  lemma DecimalInjective(m: nat, n: nat)
    ensures Decimal(m) == Decimal(n) <==> m == n
  {
    ParseDecimalOfDecimal(m);
    ParseDecimalOfDecimal(n);
  }

  /** The index of the first `c` in `s`, or `|s|` when there is none. */
  function IndexOf(s: string, c: char): (i: nat)
    ensures i <= |s|
    ensures i < |s| ==> s[i] == c
    ensures forall j :: 0 <= j < i ==> s[j] != c
  {
    if s == [] then 0 else if s[0] == c then 0 else 1 + IndexOf(s[1..], c)
  }

  /** The length of the longest suffix of `s` that contains no `c`. */
  function SuffixWithout(s: string, c: char): (n: nat)
    ensures n <= |s|
    ensures n < |s| ==> s[|s| - 1 - n] == c
    ensures forall j :: |s| - n <= j < |s| ==> s[j] != c
  {
    if s == [] then 0 else if s[|s| - 1] == c then 0 else 1 + SuffixWithout(s[..|s| - 1], c)
  }

  /** `IPEndPoint.ToString()`: the host, a colon, the decimal port. */
  function EndpointText(e: Endpoint): (text: string)
    ensures |text| == |e.host| + 1 + |Decimal(e.port)|
    ensures text[|text| - 1 - |Decimal(e.port)|] == ':'
    ensures text[|text| - |Decimal(e.port)|..] == Decimal(e.port)
    ensures text[..|text| - |Decimal(e.port)| - 1] == e.host
  {
    e.host + ":" + Decimal(e.port)
  }

  /** The key `query.Id.ToString() + "-" + request.RemoteEndPoint.ToString()`. */
  function RequestKey(id: uint16, remote: Endpoint): (key: string)
    ensures |key| == |Decimal(id)| + 1 + |EndpointText(remote)|
    ensures key[|Decimal(id)|] == '-'
    ensures key[..|Decimal(id)|] == Decimal(id)
    ensures key[|Decimal(id)| + 1..] == EndpointText(remote)
  {
    Decimal(id) + "-" + EndpointText(remote)
  }

  /** Two endpoints render alike only if they are the same endpoint: the port is
      everything after the last colon. */
  lemma EndpointTextInjective(a: Endpoint, b: Endpoint)
    ensures EndpointText(a) == EndpointText(b) <==> a == b
  {
    if EndpointText(a) == EndpointText(b) {
      var s := EndpointText(a);
      var da, db := Decimal(a.port), Decimal(b.port);
      assert SuffixWithout(s, ':') == |da| by {
        assert s == a.host + ":" + da;
        assert s[|s| - 1 - |da|] == ':';
      }
      assert SuffixWithout(s, ':') == |db| by {
        assert s == b.host + ":" + db;
        assert s[|s| - 1 - |db|] == ':';
      }
      assert da == s[|s| - |da|..] == db;
      assert a.host == s[..|s| - 1 - |da|] == b.host;
      DecimalInjective(a.port, b.port);
    }
  }

  /** Distinct (query ID, sender) pairs give distinct keys: the query ID is
      everything before the first dash. */
  lemma RequestKeyInjective(id1: uint16, remote1: Endpoint, id2: uint16, remote2: Endpoint)
    ensures RequestKey(id1, remote1) == RequestKey(id2, remote2) <==> id1 == id2 && remote1 == remote2
  {
    if RequestKey(id1, remote1) == RequestKey(id2, remote2) {
      var s := RequestKey(id1, remote1);
      var d1, d2 := Decimal(id1), Decimal(id2);
      assert IndexOf(s, '-') == |d1| by {
        assert s == d1 + "-" + EndpointText(remote1);
        assert s[|d1|] == '-';
      }
      assert IndexOf(s, '-') == |d2| by {
        assert s == d2 + "-" + EndpointText(remote2);
        assert s[|d2|] == '-';
      }
      assert d1 == s[..|d1|] == d2;
      assert EndpointText(remote1) == s[|d1| + 1..] == EndpointText(remote2);
      DecimalInjective(id1, id2);
      EndpointTextInjective(remote1, remote2);
    }
  }
}
