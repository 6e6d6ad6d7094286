/** The loosely typed values the app reads out of backend responses and push
    payloads, with JavaScript's truthiness, `??` chains, `String(v)` and
    `Number(v)`. */
module Json {
  import opened Text

  /** A field value. Numbers are integers (fractional amounts are not part of
      this model); `VOther` is any object or array. */
  datatype Value = VUndef | VNull | VBool(b: bool) | VNum(n: int) | VStr(s: string) | VOther

  type Record = map<string, Value>

  /** What `??` skips and `== null` matches. */
  predicate Nullish(v: Value) { v.VUndef? || v.VNull? }

  /** JavaScript truthiness (`!!v`). */
  predicate Truthy(v: Value)
  {
    match v
    case VUndef => false
    case VNull => false
    case VBool(b) => b
    case VNum(n) => n != 0
    case VStr(s) => s != ""
    case VOther => true
  }

  /** `rec.k`, where a missing key reads as `undefined`. */
  function Field(rec: Record, k: string): Value
  {
    if k in rec then rec[k] else VUndef
  }

  /** `rec.k1 ?? rec.k2 ?? … ?? null`: the first field that is not nullish,
      or null. */
  function Coalesce(rec: Record, keys: seq<string>): (v: Value)
    ensures Nullish(v) ==> v == VNull
    ensures v == VNull <==> forall i :: 0 <= i < |keys| ==> Nullish(Field(rec, keys[i]))
    ensures v != VNull ==>
      exists i :: 0 <= i < |keys| && Field(rec, keys[i]) == v && (forall j :: 0 <= j < i ==> Nullish(Field(rec, keys[j])))
  {
    if keys == [] then VNull
    else if !Nullish(Field(rec, keys[0])) then Field(rec, keys[0])
    else
      var v := Coalesce(rec, keys[1..]);
      assert forall i :: 1 <= i < |keys| ==> keys[1..][i - 1] == keys[i];
      v
  }

  /** `a ?? b`. */
  function OrElse(a: Value, b: Value): (r: Value)
    ensures !Nullish(a) ==> r == a
    ensures Nullish(a) ==> r == b
  {
    if Nullish(a) then b else a
  }

  /** `String(v)`. */
  function ToStr(v: Value): string
  {
    match v
    case VUndef => "undefined"
    case VNull => "null"
    case VBool(b) => if b then "true" else "false"
    case VNum(n) => IntToString(n)
    case VStr(s) => s
    case VOther => "[object Object]"
  }

  /** `Number(v)` where the result is an integer: decimal digits with an
      optional sign, surrounded by white space; `None` for NaN and for the
      fractional, exponent, hexadecimal, octal, binary and `Infinity`
      numerals this model does not read. */
  function NumberOf(v: Value): (r: Option<int>)
    ensures v.VNum? ==> r == Some(v.n)
    ensures Nullish(v) ==> (r == Some(0) <==> v.VNull?)
  {
    match v
    case VUndef => None
    case VNull => Some(0)
    case VBool(b) => Some(if b then 1 else 0)
    case VNum(n) => Some(n)
    case VStr(s) =>
      var t := Trim(s);
      if t == "" then Some(0)
      else if AllDigits(t) then Some(DecimalValue(t))
      else if t[0] == '-' && |t| > 1 && AllDigits(t[1..]) then Some(-(DecimalValue(t[1..]) as int))
      else if t[0] == '+' && |t| > 1 && AllDigits(t[1..]) then Some(DecimalValue(t[1..]))
      else None
    case VOther => None
  }

  /** `String(v).trim().toLowerCase()`, the form in which the screens compare
      words. Written out per kind so that no literal is trimmed at run time. */
  function Word(v: Value): string
  {
    match v
    case VUndef => "undefined"
    case VNull => "null"
    case VBool(b) => if b then "true" else "false"
    case VNum(n) => IntToString(n)
    case VStr(s) => Lower(Trim(s))
    case VOther => "[object object]"
  }

  lemma IntToStringTrimmed(n: int)
    ensures Trim(IntToString(n)) == IntToString(n)
  {
    var r := IntToString(n);
    if n < 0 {
      assert r == "-" + NatToString(-n);
      assert forall i :: 1 <= i < |r| ==> IsDigit(r[i]) by {
        assert forall i :: 1 <= i < |r| ==> r[i] == NatToString(-n)[i - 1];
      }
    }
    TrimOfTrimmed(r);
  }

  lemma IntToStringLower(n: int)
    ensures Lower(IntToString(n)) == IntToString(n)
  {
    var r := IntToString(n);
    if n < 0 {
      assert r == "-" + NatToString(-n);
      assert forall i :: 1 <= i < |r| ==> IsDigit(r[i]) by {
        assert forall i :: 1 <= i < |r| ==> r[i] == NatToString(-n)[i - 1];
      }
    }
  }

  /** A literal word with no surrounding blanks and no capital letters is
      its own trimmed, lower-cased form. */
  lemma PlainLiteral(s: string)
    requires |s| > 0 ==> s[0] != ' ' && s[|s| - 1] != ' '
    requires forall i :: 0 <= i < |s| ==> PlainChar(s[i])
    ensures Trim(s) == s && Lower(s) == s
  {
    TrimOfTrimmed(s);
  }

  /** The characters of the fixed words: lower-case ASCII letters, brackets
      and the plain space. */
  predicate PlainChar(c: char)
  {
    'a' <= c <= 'z' || c == '[' || c == ']' || c == ' '
  }

  lemma FixedWordsPlain()
    ensures Trim("undefined") == "undefined" && Lower("undefined") == "undefined"
    ensures Trim("null") == "null" && Lower("null") == "null"
    ensures Trim("true") == "true" && Lower("true") == "true"
    ensures Trim("false") == "false" && Lower("false") == "false"
    ensures Trim("[object object]") == "[object object]" && Lower("[object object]") == "[object object]"
  {
    PlainLiteral("undefined");
    PlainLiteral("null");
    PlainLiteral("true");
    PlainLiteral("false");
    PlainLiteral("[object object]");
  }

  /** `Word` is what its name says. */
  lemma WordIsTrimmedLowerText(v: Value)
    ensures Word(v) == Lower(Trim(ToStr(v)))
  {
    match v
    case VNum(n) =>
      IntToStringTrimmed(n);
      IntToStringLower(n);
    case VStr(s) =>
    case VOther =>
      TrimOfTrimmed("[object Object]");
      assert Lower("[object Object]") == "[object object]";
    case _ =>
      FixedWordsPlain();
  }

  /** A word is already trimmed and lower-case. */
  lemma WordIsNormal(v: Value)
    ensures Trim(Word(v)) == Word(v)
    ensures Lower(Word(v)) == Word(v)
  {
    match v
    case VNum(n) =>
      IntToStringTrimmed(n);
      IntToStringLower(n);
    case VStr(s) =>
      TrimIdempotent(s);
      LowerOfTrimmedIsTrimmed(Trim(s));
      LowerIdempotent(Trim(s));
    case _ =>
      FixedWordsPlain();
  }
}
