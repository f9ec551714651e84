/** Decoded JSON values and the handful of Python operations the client
    applies to them: `key in value`, `value[key]`, truthiness and `str`. */
module JsonValues {
  import opened Results

  /** A value as `json.loads` returns it: None, bool, int, str, list or dict.
      JSON numbers are modelled as integers. */
  datatype Json =
    | JNull
    | JBool(b: bool)
    | JNum(n: int)
    | JStr(s: string)
    | JArr(items: seq<Json>)
    | JObj(fields: map<string, Json>)

  /** The two exceptions Python raises when a lookup goes wrong. */
  datatype LookupError =
    | KeyMissing(key: string)   // KeyError: a dict without that key
    | WrongType(key: string)    // TypeError: the value is not a dict

  /** Python truthiness: exactly None, False, 0, "", [] and {} are false. */
  predicate Truthy(j: Json): (r: bool)
    ensures r <==> j !in {JNull, JBool(false), JNum(0), JStr(""), JArr([]), JObj(map[])}
  {
    match j
    case JNull => false
    case JBool(b) => b
    case JNum(n) => n != 0
    case JStr(s) => s != ""
    case JArr(items) => items != []
    case JObj(fields) => fields != map[]
  }

  /** `key` occurs as a contiguous piece of `s` (Python's `key in s` on strings). */
  predicate Occurs(key: string, s: string)
    decreases |s|
  {
    if |s| < |key| then false
    else s[..|key|] == key || Occurs(key, s[1..])
  }

  /** `key` starts at position `i` of `s`. */
  predicate StartsAt(key: string, s: string, i: int) {
    0 <= i && i + |key| <= |s| && s[i..i + |key|] == key
  }

  /** `Occurs` finds `key` exactly when it starts at some position of `s`. */
  lemma {:induction false} OccursAt(key: string, s: string)
    ensures Occurs(key, s) <==> exists i :: StartsAt(key, s, i)
    decreases |s|
  {
    if |s| < |key| {
      assert forall i :: !StartsAt(key, s, i);
    } else if s[..|key|] == key {
      assert StartsAt(key, s, 0);
    } else {
      OccursAt(key, s[1..]);
      if Occurs(key, s[1..]) {
        var j :| StartsAt(key, s[1..], j);
        assert s[j + 1..j + 1 + |key|] == s[1..][j..j + |key|];
        assert StartsAt(key, s, j + 1);
      }
      if i :| StartsAt(key, s, i) {
        assert i != 0;
        assert s[1..][i - 1..i - 1 + |key|] == s[i..i + |key|];
        assert StartsAt(key, s[1..], i - 1);
      }
    }
  }

  /** Python's `key in j`: dict membership, list element equality, substring;
      any other value raises TypeError. */
  function Contains(j: Json, key: string): (r: Result<bool, LookupError>)
    ensures r.Err? <==> !(j.JObj? || j.JArr? || j.JStr?)
    ensures r.Err? ==> r.error == WrongType(key)
    ensures j.JObj? ==> r == Ok(key in j.fields)
    ensures j.JArr? ==> r == Ok(JStr(key) in j.items)
    ensures j.JStr? ==> (r == Ok(true) <==> exists i :: StartsAt(key, j.s, i))
  {
    match j
    case JObj(fields) => Ok(key in fields)
    case JArr(items) => Ok(JStr(key) in items)
    case JStr(s) => OccursAt(key, s); Ok(Occurs(key, s))
    case _ => Err(WrongType(key))
  }

  /** Python's `j[key]` with a string key. */
  function Subscript(j: Json, key: string): (r: Result<Json, LookupError>)
    ensures r.Ok? <==> j.JObj? && key in j.fields
    ensures r.Ok? ==> r.value == j.fields[key]
    ensures r.Err? ==> r.error == if j.JObj? then KeyMissing(key) else WrongType(key)
  {
    match j
    case JObj(fields) => if key in fields then Ok(fields[key]) else Err(KeyMissing(key))
    case _ => Err(WrongType(key))
  }

  /** A one-key dict `{key: payload}`, the shape every request body takes. */
  function Wrap(key: string, payload: Json): (r: Json)
    ensures Subscript(r, key) == Ok(payload)
    ensures r.JObj? && r.fields.Keys == {key}
  {
    JObj(map[key := payload])
  }

  // ---------------------------------------------------------------------
  // Decimal text of integers, as Python's str(int) writes it.

  predicate IsDigit(c: char) {
    '0' <= c <= '9'
  }

  function DigitChar(d: nat): (c: char)
    requires d < 10
    ensures IsDigit(c)
  {
    ('0' as int + d) as char
  }

  function DigitValue(c: char): (d: nat)
    requires IsDigit(c)
    ensures d < 10 && DigitChar(d) == c
  {
    c as int - '0' as int
  }

  /** The decimal digits of `n`, most significant first, without leading zeros. */
  function Digits(n: nat): (s: string)
    ensures |s| > 0
    ensures forall i :: 0 <= i < |s| ==> IsDigit(s[i])
    ensures |s| > 1 ==> s[0] != '0'
  {
    if n < 10 then [DigitChar(n)] else Digits(n / 10) + [DigitChar(n % 10)]
  }

  /** Python's `str(n)` for an int: a minus sign for negatives, then the digits. */
  function Decimal(n: int): (s: string)
    ensures |s| > 0 && ' ' !in s
  {
    if n < 0 then "-" + Digits(-n) else Digits(n)
  }

  /** Reads a non-empty string of decimal digits back into a number. */
  function ParseDigits(s: string): Option<nat>
    decreases |s|
  {
    if |s| == 0 || !IsDigit(s[|s| - 1]) then None
    else if |s| == 1 then Some(DigitValue(s[0]))
    else match ParseDigits(s[..|s| - 1])
      case None => None
      case Some(high) => Some(high * 10 + DigitValue(s[|s| - 1]))
  }

  /** Reads an optionally negative decimal integer. */
  function ParseDecimal(s: string): Option<int> {
    if |s| > 0 && s[0] == '-' then
      match ParseDigits(s[1..])
      case None => None
      case Some(m) => Some(-(m as int))
    else ParseDigits(s)
  }

  lemma {:induction false} DigitsRoundTrip(n: nat)
    ensures ParseDigits(Digits(n)) == Some(n)
  {
    if n >= 10 {
      DigitsRoundTrip(n / 10);
      var s := Digits(n);
      assert s[..|s| - 1] == Digits(n / 10);
    }
  }

  /** The decimal text of an integer identifies it. */
  lemma DecimalRoundTrip(n: int)
    ensures ParseDecimal(Decimal(n)) == Some(n)
  {
    if n < 0 {
      DigitsRoundTrip(-n);
      assert Decimal(n)[1..] == Digits(-n);
    } else {
      DigitsRoundTrip(n);
    }
  }

  /** Python's `str(j)` for the scalar values a JSON document can hold.
      Lists and dicts are rendered as the empty text (see README). */
  function Str(j: Json): (s: string)
    ensures j.JStr? ==> s == j.s
    ensures j.JNum? ==> ParseDecimal(s) == Some(j.n)
  {
    match j
    case JStr(t) => t
    case JNum(n) => DecimalRoundTrip(n); Decimal(n)
    case JBool(b) => if b then "True" else "False"
    case JNull => "None"
    case _ => ""
  }
}
