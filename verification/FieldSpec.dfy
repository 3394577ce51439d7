/** One field specification, two readers: the interpreter that checks a payload and the compiler that
    emits its JSON Schema. Error wording and schema descriptions are not modelled. */
module FieldSpec {
  import opened Wrappers
  import opened Json
  import Text
  import WallClock

  /** Which body nodes a Journal Entry admits. The interpreter leaves bodies to a later hook. */
  datatype BodyPolicy = TextOnly | TextOrExistingRef | TextOrNewRef

  datatype Spec =
    | Never
    | StrSpec(nonEmpty: bool)
    | PositiveInt
    | NumberSpec(min: Option<real>)
    | LocalDateTime
    | Uuid(schemaRegex: bool)
    | EnumStr(domain: seq<string>)
    | ArrayOf(element: Spec, plainItems: bool, minItems: Option<nat>)
    | Object(payload: Payload)
    | JsonObject
    | OneOfObject(variants: seq<Payload>)
    | Body(policy: BodyPolicy)
    | OneOfArray(variants: seq<Payload>, minItems: Option<nat>)

  datatype Field = Field(name: string, required: bool, clearable: bool, spec: Spec)

  datatype Payload = Payload(fields: seq<Field>)

  // ── opaque parsers ─────────────────────────────────────────────────────

  predicate IsHex(c: char) {
    '0' <= c <= '9' || 'a' <= c <= 'f' || 'A' <= c <= 'F'
  }

  predicate AllHex(s: string) {
    forall i :: 0 <= i < |s| ==> IsHex(s[i])
  }

  /** The 36-character form, which is also the advertised pattern. */
  predicate IsHyphenated(s: string) {
    && |s| == 36 && s[8] == '-' && s[13] == '-' && s[18] == '-' && s[23] == '-'
    && AllHex(s[..8]) && AllHex(s[9..13]) && AllHex(s[14..18]) && AllHex(s[19..23]) && AllHex(s[24..])
  }

  /** What the UUID parser takes: hyphenated, plain, braced or as a URN. */
  predicate IsUuid(s: string) {
    || IsHyphenated(s)
    || (|s| == 32 && AllHex(s))
    || (|s| == 38 && s[0] == '{' && s[37] == '}' && IsHyphenated(s[1..37]))
    || (|s| == 45 && s[..9] == "urn:uuid:" && IsHyphenated(s[9..]))
  }

  lemma HexIs(c: char)
    ensures IsHex(c) <==> c in "0123456789abcdefABCDEF"
  {
  }

  /** Thirty-two digits with their four hyphens. */
  function Dashed(digits: string): string
    requires |digits| == 32
  {
    digits[..8] + "-" + digits[8..12] + "-" + digits[12..16] + "-" + digits[16..20] + "-" + digits[20..]
  }

  lemma DashedIs(digits: string)
    requires |digits| == 32 && AllHex(digits)
    ensures IsHyphenated(Dashed(digits))
  {
    var s := Dashed(digits);
    assert s[..8] == digits[..8] && s[9..13] == digits[8..12] && s[14..18] == digits[12..16] && s[19..23] == digits[16..20];
    assert s[24..] == digits[20..];
  }

  /** Any thirty-two hexadecimal digits are a UUID, written plain, with hyphens, in braces or as a URN. */
  lemma UuidForms(digits: string)
    requires |digits| == 32 && AllHex(digits)
    ensures IsUuid(digits) && IsUuid(Dashed(digits)) && IsUuid("{" + Dashed(digits) + "}") && IsUuid("urn:uuid:" + Dashed(digits))
  {
    DashedIs(digits);
    var d := Dashed(digits);
    assert ("{" + d + "}")[1..37] == d && ("urn:uuid:" + d)[9..] == d && ("urn:uuid:" + d)[..9] == "urn:uuid:";
    hide IsHyphenated;
  }

  lemma DashedDigits(s: string) returns (digits: string)
    requires IsHyphenated(s)
    ensures |digits| == 32 && AllHex(digits) && s == Dashed(digits)
  {
    digits := s[..8] + s[9..13] + s[14..18] + s[19..23] + s[24..];
    assert digits[..8] == s[..8] && digits[8..12] == s[9..13] && digits[12..16] == s[14..18] && digits[16..20] == s[19..23];
    assert digits[20..] == s[24..];
  }

  /** And there is no other form. */
  lemma UuidHasDigits(s: string) returns (digits: string)
    requires IsUuid(s)
    ensures |digits| == 32 && AllHex(digits)
    ensures s == digits || s == Dashed(digits) || s == "{" + Dashed(digits) + "}" || s == "urn:uuid:" + Dashed(digits)
  {
    hide IsHyphenated;
    if IsHyphenated(s) {
      digits := DashedDigits(s);
    } else if |s| == 32 && AllHex(s) {
      digits := s;
    } else if |s| == 38 {
      digits := DashedDigits(s[1..37]);
      assert s == "{" + s[1..37] + "}";
    } else {
      digits := DashedDigits(s[9..]);
      assert s == s[..9] + s[9..];
    }
  }

  predicate IsBlank(s: string) {
    Text.AllWhite(s)
  }

  function AsReal(n: Number): real {
    match n
    case PosInt(i) => i as real
    case NegInt(i) => i as real
    case Float(r) => r
  }

  // ── the interpreter ────────────────────────────────────────────────────

  ghost predicate Declares(p: Payload, name: string) {
    exists i :: 0 <= i < |p.fields| && p.fields[i].name == name
  }

  /** What `check_field` accepts of a present value, clearing nulls apart. */
  ghost predicate AcceptsSpec(spec: Spec, v: Value)
    decreases spec
  {
    match spec
    case Never => false
    case StrSpec(nonEmpty) => v.Str? && (nonEmpty ==> !IsBlank(v.s))
    case PositiveInt => v.Num? && v.num.PosInt? && v.num.n >= 1
    case NumberSpec(min) => v.Num? && (min.Some? ==> AsReal(v.num) >= min.value)
    case LocalDateTime => v.Str? && WallClock.Parse(v.s).Some?
    case Uuid(_) => v.Str? && IsUuid(v.s)
    case EnumStr(domain) => v.Str? && v.s in domain
    case ArrayOf(element, _, minItems) =>
      v.Arr? && (minItems.Some? ==> |v.items| >= minItems.value)
      && forall i :: 0 <= i < |v.items| ==> AcceptsSpec(element, v.items[i])
    case Object(payload) => Accepts(payload, v)
    case JsonObject => v.Obj?
    case OneOfObject(variants) => AcceptsOneOf(variants, v)
    case Body(_) => true
    case OneOfArray(variants, minItems) =>
      v.Arr? && (minItems.Some? ==> |v.items| >= minItems.value)
      && forall k :: 0 <= k < |v.items| ==> AcceptsOneOf(variants, v.items[k])
  }

  ghost predicate AcceptsOneOf(variants: seq<Payload>, v: Value)
    decreases variants
  {
    exists i :: 0 <= i < |variants| && Accepts(variants[i], v)
  }

  ghost predicate AcceptsField(f: Field, v: Value)
    decreases f
  {
    (f.clearable && v.Null?) || AcceptsSpec(f.spec, v)
  }

  /** What `PayloadSpec::check` accepts. */
  ghost predicate Accepts(p: Payload, v: Value)
    decreases p
  {
    && v.Obj?
    && (forall k :: k in v.fields ==> Declares(p, k))
    && forall i :: 0 <= i < |p.fields| ==>
         if p.fields[i].name in v.fields then AcceptsField(p.fields[i], v.fields[p.fields[i].name]) else !p.fields[i].required
  }

  /** The first field of a name. */
  method FieldOf(p: Payload, name: string) returns (found: bool)
    ensures found <==> Declares(p, name)
  {
    var i := 0;
    while i < |p.fields|
      invariant 0 <= i <= |p.fields|
      invariant forall j :: 0 <= j < i ==> p.fields[j].name != name
    {
      if p.fields[i].name == name {
        return true;
      }
      i := i + 1;
    }
    return false;
  }

  /** `PayloadSpec::check`: unknown keys, then each field in turn, stopping at the first fault. */
  method Check(p: Payload, v: Value) returns (ok: bool)
    ensures ok <==> Accepts(p, v)
    decreases p
  {
    if !v.Obj? {
      return false;
    }
    var keys := v.fields.Keys;
    while keys != {}
      invariant keys <= v.fields.Keys
      invariant forall k :: k in v.fields.Keys - keys ==> Declares(p, k)
    {
      var key :| key in keys;
      var known := FieldOf(p, key);
      if !known {
        return false;
      }
      keys := keys - {key};
    }
    var i := 0;
    while i < |p.fields|
      invariant 0 <= i <= |p.fields|
      invariant forall j :: 0 <= j < i ==>
                  if p.fields[j].name in v.fields then AcceptsField(p.fields[j], v.fields[p.fields[j].name]) else !p.fields[j].required
    {
      var field := p.fields[i];
      if field.name in v.fields {
        var fits := CheckField(field, v.fields[field.name]);
        if !fits {
          return false;
        }
      } else if field.required {
        return false;
      }
      i := i + 1;
    }
    return true;
  }

  /** `check_field`: the clearing null first, then the value's shape. */
  method CheckField(f: Field, v: Value) returns (ok: bool)
    ensures ok <==> AcceptsField(f, v)
    decreases f
  {
    if f.clearable && v.Null? {
      return true;
    }
    ok := CheckSpec(f.spec, v);
  }

  method CheckSpec(spec: Spec, v: Value) returns (ok: bool)
    ensures ok <==> AcceptsSpec(spec, v)
    decreases spec, 0
  {
    match spec {
      case Never => ok := false;
      case StrSpec(nonEmpty) => ok := v.Str? && (!nonEmpty || !IsBlank(v.s));
      case PositiveInt => ok := v.Num? && v.num.PosInt? && v.num.n >= 1;
      case NumberSpec(min) => ok := v.Num? && (min.None? || AsReal(v.num) >= min.value);
      case LocalDateTime => ok := v.Str? && WallClock.Parse(v.s).Some?;
      case Uuid(_) => ok := v.Str? && IsUuid(v.s);
      case EnumStr(domain) => ok := v.Str? && v.s in domain;
      case ArrayOf(element, _, minItems) => ok := CheckArray(element, minItems, v);
      case Object(payload) => ok := Check(payload, v);
      case JsonObject => ok := v.Obj?;
      case OneOfObject(variants) => ok := CheckOneOf(variants, v);
      case Body(_) => ok := true;
      case OneOfArray(variants, minItems) => ok := CheckOneOfArray(variants, minItems, v);
    }
  }

  method CheckArray(element: Spec, minItems: Option<nat>, v: Value) returns (ok: bool)
    ensures ok <==> v.Arr? && (minItems.Some? ==> |v.items| >= minItems.value)
                    && forall i :: 0 <= i < |v.items| ==> AcceptsSpec(element, v.items[i])
    decreases element, 1
  {
    if !v.Arr? || (minItems.Some? && |v.items| < minItems.value) {
      return false;
    }
    var i := 0;
    while i < |v.items|
      invariant 0 <= i <= |v.items|
      invariant forall j :: 0 <= j < i ==> AcceptsSpec(element, v.items[j])
    {
      var fits := CheckSpec(element, v.items[i]);
      if !fits {
        return false;
      }
      i := i + 1;
    }
    return true;
  }

  /** `check_one_of`: the first variant that accepts ends the search. */
  method CheckOneOf(variants: seq<Payload>, v: Value) returns (ok: bool)
    ensures ok <==> AcceptsOneOf(variants, v)
    decreases variants, 0
  {
    var i := 0;
    while i < |variants|
      invariant 0 <= i <= |variants|
      invariant forall j :: 0 <= j < i ==> !Accepts(variants[j], v)
    {
      var fits := Check(variants[i], v);
      if fits {
        return true;
      }
      i := i + 1;
    }
    return false;
  }

  method CheckOneOfArray(variants: seq<Payload>, minItems: Option<nat>, v: Value) returns (ok: bool)
    ensures ok <==> v.Arr? && (minItems.Some? ==> |v.items| >= minItems.value)
                    && forall k :: 0 <= k < |v.items| ==> AcceptsOneOf(variants, v.items[k])
    decreases variants, 1
  {
    if !v.Arr? || (minItems.Some? && |v.items| < minItems.value) {
      return false;
    }
    var k := 0;
    while k < |v.items|
      invariant 0 <= k <= |v.items|
      invariant forall j :: 0 <= j < k ==> AcceptsOneOf(variants, v.items[j])
    {
      var fits := CheckOneOf(variants, v.items[k]);
      if !fits {
        return false;
      }
      k := k + 1;
    }
    return true;
  }
}
