/** Small value-level helpers shared by every service: an Option type,
    Hutool's notion of a blank string, Java's Long.toString and the
    string-valued lookup that Redis GET performs. */
module Util {

  datatype Option<+T> = None | Some(value: T)

  /** com.hmdp.dto.Result: Result.ok(data) or Result.fail(errorMsg). */
  datatype Result<+T> = Ok(data: T) | Fail(errorMsg: string)

  /** Hutool's CharUtil.isBlankChar: Java whitespace, Unicode space
      separators, and the BOM, LRE and NUL characters. */
  predicate IsBlankChar(c: char)
  {
    var n := c as int;
    || n == 0x20 || (0x09 <= n <= 0x0D) || (0x1C <= n <= 0x1F)
    || n == 0x00A0 || n == 0x1680 || (0x2000 <= n <= 0x200A)
    || n == 0x2028 || n == 0x2029 || n == 0x202F || n == 0x205F || n == 0x3000
    || n == 0xFEFF || n == 0x202A || n == 0x0000
  }

  /** StrUtil.isBlank for a non-null string: every character is blank
      (so the empty string is blank). */
  predicate IsBlank(s: string)
  {
    forall i :: 0 <= i < |s| ==> IsBlankChar(s[i])
  }

  /** The result of a Redis GET: the stored string, or null when the key is absent. */
  function Lookup(m: map<string, string>, key: string): (v: Option<string>)
    ensures v.Some? <==> key in m
    ensures v.Some? ==> v.value == m[key]
  {
    if key in m then Some(m[key]) else None
  }

  /** Read after write on the string table: SET makes GET answer the value,
      DEL makes it answer null, and no other key's answer changes. */
  lemma LookupAfterWrite(m: map<string, string>, key: string, value: string, other: string)
    ensures Lookup(m[key := value], key) == Some(value)
    ensures Lookup(m - {key}, key).None?
    ensures other != key ==> Lookup(m[key := value], other) == Lookup(m, other)
    ensures other != key ==> Lookup(m - {key}, other) == Lookup(m, other)
  {
  }

  function DigitChar(d: nat): (c: char)
    requires d < 10
    ensures '0' <= c <= '9'
    ensures c as int - '0' as int == d
  {
    "0123456789"[d]
  }

  /** Decimal digits of a natural number, most significant first, no leading zeros. */
  function NatDigits(n: nat): (s: string)
    ensures |s| > 0
    ensures forall i :: 0 <= i < |s| ==> '0' <= s[i] <= '9'
    decreases n
  {
    if n < 10 then [DigitChar(n)] else NatDigits(n / 10) + [DigitChar(n % 10)]
  }

  /** Long.toString: an optional minus sign followed by the digits. */
  function DecimalString(n: int): (s: string)
    ensures |s| > 0
    ensures s[0] == '-' <==> n < 0
  {
    if n < 0 then "-" + NatDigits(-n) else NatDigits(n)
  }

  /** The number a string of decimal digits denotes. */
  function DigitsValue(s: string): int
  {
    if s == [] then 0 else 10 * DigitsValue(s[..|s| - 1]) + (s[|s| - 1] as int - '0' as int)
  }

  /** Reading the digits back gives the number. */
  lemma {:induction false} NatDigitsValue(n: nat)
    ensures DigitsValue(NatDigits(n)) == n
    decreases n
  {
    if n >= 10 {
      var s := NatDigits(n);
      assert s[..|s| - 1] == NatDigits(n / 10);
      NatDigitsValue(n / 10);
    }
  }

  /** Long.parseLong on the strings DecimalString produces. */
  function DecimalValue(s: string): int
  {
    if |s| > 0 && s[0] == '-' then -DigitsValue(s[1..]) else DigitsValue(s)
  }

  /** Parsing the decimal string of a number gives the number back. */
  lemma DecimalStringValue(n: int)
    ensures DecimalValue(DecimalString(n)) == n
  {
    if n < 0 {
      NegativeValue(n);
    } else {
      NonNegativeValue(n);
    }
  }

  lemma NegativeValue(n: int)
    requires n < 0
    ensures DecimalValue(DecimalString(n)) == n
  {
    var m: nat := -n;
    var d := NatDigits(m);
    var s := DecimalString(n);
    assert s == "-" + d;
    assert s[1..] == d;
    NatDigitsValue(m);
    assert DecimalValue(s) == -DigitsValue(d);
  }

  lemma NonNegativeValue(n: int)
    requires n >= 0
    ensures DecimalValue(DecimalString(n)) == n
  {
    var s := NatDigits(n);
    assert s[0] != '-';
    NatDigitsValue(n);
    assert DecimalValue(s) == DigitsValue(s);
  }

  /** Distinct numbers have distinct decimal strings, so distinct ids give distinct Redis keys. */
  lemma DecimalStringInjective(a: int, b: int)
    requires DecimalString(a) == DecimalString(b)
    ensures a == b
  {
    DecimalStringValue(a);
    DecimalStringValue(b);
  }

  /** Two keys built from prefixes that differ in their first character never coincide. */
  lemma DistinctPrefixKeys(p: string, q: string, a: string, b: string)
    requires |p| > 0 && |q| > 0 && p[0] != q[0]
    ensures p + a != q + b
  {
    assert (p + a)[0] == p[0] && (q + b)[0] == q[0];
  }

  /** Keys with the same prefix coincide exactly when their suffixes do. */
  lemma SamePrefixKeys(p: string, a: string, b: string)
    ensures p + a == p + b <==> a == b
  {
    if p + a == p + b {
      assert a == (p + a)[|p|..] && b == (p + b)[|p|..];
    }
  }
  /** Setting a key and later deleting it leaves no trace of the setting. */
  lemma SetThenDelete<K, V>(m: map<K, V>, k: K, v: V, j: K, w: V)
    requires j != k
    ensures m[k := v][j := w] - {k} == m[j := w] - {k}
  {
  }
}
