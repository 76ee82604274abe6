/**
 * The hand-written request validators: the `isUUID` pattern, the item
 * predicates of `validators`, the `arrayOf` rule over them and the `varChar`
 * length rule.
 */
module CustomValidators {
  import opened Js
  import opened Errors

  // -----------------------------------------------------------------------
  // isUUID

  /** `[0-9a-f]` under the `i` flag. */
  predicate IsHex(c: char)
  {
    '0' <= c <= '9' || 'a' <= c <= 'f' || 'A' <= c <= 'F'
  }

  /** The positions of the four dashes in the 8-4-4-4-12 layout. */
  predicate IsDashPosition(i: int)
  {
    i == 8 || i == 13 || i == 18 || i == 23
  }

  /** The version digit `[1-5]`. */
  predicate IsVersionDigit(c: char)
  {
    '1' <= c <= '5'
  }

  /** The variant digit `[89ab]` under the `i` flag. */
  predicate IsVariantDigit(c: char)
  {
    c == '8' || c == '9' || c == 'a' || c == 'b' || c == 'A' || c == 'B'
  }

  /**
   * `isUUID(s)`: the anchored, case-insensitive 8-4-4-4-12 pattern whose
   * third group starts with a version digit and whose fourth group starts
   * with a variant digit.
   */
  predicate IsUUID(s: string)
  {
    && |s| == 36
    && (forall i | 0 <= i < 36 :: if IsDashPosition(i) then s[i] == '-' else IsHex(s[i]))
    && IsVersionDigit(s[14])
    && IsVariantDigit(s[19])
  }

  /** `n` characters, each a hexadecimal digit. */
  predicate HexGroup(g: string, n: nat)
  {
    |g| == n && forall i | 0 <= i < n :: IsHex(g[i])
  }

  /** Five groups written with dashes between them. */
  function Dashed(a: string, b: string, c: string, d: string, e: string): (s: string)
    ensures |s| == |a| + |b| + |c| + |d| + |e| + 4
  {
    a + "-" + b + "-" + c + "-" + d + "-" + e
  }

  /** A UUID is exactly its five groups written with dashes, 8-4-4-4-12 hex digits long. */
  lemma UuidIsDashedGroups(s: string)
    requires IsUUID(s)
    ensures s == Dashed(s[..8], s[9..13], s[14..18], s[19..23], s[24..])
    ensures HexGroup(s[..8], 8) && HexGroup(s[9..13], 4) && HexGroup(s[14..18], 4) && HexGroup(s[19..23], 4) && HexGroup(s[24..], 12)
  {
    var t := Dashed(s[..8], s[9..13], s[14..18], s[19..23], s[24..]);
    assert |t| == 36;
    forall i | 0 <= i < 36 ensures t[i] == s[i] {
      if i < 8 { assert t[i] == s[..8][i]; }
      else if i == 8 { assert t[i] == '-'; }
      else if i < 13 { assert t[i] == s[9..13][i - 9]; }
      else if i == 13 { assert t[i] == '-'; }
      else if i < 18 { assert t[i] == s[14..18][i - 14]; }
      else if i == 18 { assert t[i] == '-'; }
      else if i < 23 { assert t[i] == s[19..23][i - 19]; }
      else if i == 23 { assert t[i] == '-'; }
      else { assert t[i] == s[24..][i - 24]; }
    }
    assert forall i | 0 <= i < 8 :: s[..8][i] == s[i] && !IsDashPosition(i);
    assert forall i | 0 <= i < 4 :: s[9..13][i] == s[i + 9] && !IsDashPosition(i + 9);
    assert forall i | 0 <= i < 4 :: s[14..18][i] == s[i + 14] && !IsDashPosition(i + 14);
    assert forall i | 0 <= i < 4 :: s[19..23][i] == s[i + 19] && !IsDashPosition(i + 19);
    assert forall i | 0 <= i < 12 :: s[24..][i] == s[i + 24] && !IsDashPosition(i + 24);
  }

  /** Groups of the right lengths form a UUID exactly when all are hex and the version and variant digits fit. */
  lemma DashedGroupsAreUuid(a: string, b: string, c: string, d: string, e: string)
    requires |a| == 8 && |b| == 4 && |c| == 4 && |d| == 4 && |e| == 12
    ensures IsUUID(Dashed(a, b, c, d, e)) <==>
      && HexGroup(a, 8) && HexGroup(b, 4) && HexGroup(c, 4) && HexGroup(d, 4) && HexGroup(e, 12)
      && IsVersionDigit(c[0]) && IsVariantDigit(d[0])
  {
    var s := Dashed(a, b, c, d, e);
    assert forall i | 0 <= i < 8 :: s[i] == a[i];
    assert s[8] == '-' && s[13] == '-' && s[18] == '-' && s[23] == '-';
    assert forall i | 0 <= i < 4 :: s[i + 9] == b[i] && s[i + 14] == c[i] && s[i + 19] == d[i];
    assert forall i | 0 <= i < 12 :: s[i + 24] == e[i];
    if HexGroup(a, 8) && HexGroup(b, 4) && HexGroup(c, 4) && HexGroup(d, 4) && HexGroup(e, 12) {
      forall i | 0 <= i < 36 ensures if IsDashPosition(i) then s[i] == '-' else IsHex(s[i]) {
        if i < 8 { assert s[i] == a[i]; }
        else if 9 <= i < 13 { assert s[i] == b[i - 9]; }
        else if 14 <= i < 18 { assert s[i] == c[i - 14]; }
        else if 19 <= i < 23 { assert s[i] == d[i - 19]; }
        else if 24 <= i { assert s[i] == e[i - 24]; }
      }
    }
  }

  /** The pattern carries the `i` flag: a string and its lowercase form are accepted alike. */
  lemma UuidIgnoresCase(s: string)
    ensures IsUUID(s) <==> IsUUID(ToLower(s))
  {
    var t := ToLower(s);
    assert forall i | 0 <= i < |s| :: IsHex(s[i]) <==> IsHex(t[i]);
    assert forall i | 0 <= i < |s| :: s[i] == '-' <==> t[i] == '-';
    if |s| == 36 {
      assert IsVersionDigit(s[14]) <==> IsVersionDigit(t[14]);
      assert IsVariantDigit(s[19]) <==> IsVariantDigit(t[19]);
    }
  }

  // -----------------------------------------------------------------------
  // validators

  /** `\S` */
  predicate NotSpace(c: char)
  {
    !IsSpace(c)
  }

  /**
   * The email pattern matches at `at` (the `@`) and `dot` (the `.`): a
   * non-space character before the `@`, a non-empty run of non-space
   * characters between them, and a non-space character after the `.`.
   */
  predicate EmailMatchAt(s: string, at: int, dot: int)
  {
    && 1 <= at && at + 2 <= dot && dot + 1 < |s|
    && s[at] == '@' && s[dot] == '.'
    && NotSpace(s[at - 1]) && NotSpace(s[dot + 1])
    && forall k | at < k < dot :: NotSpace(s[k])
  }

  /** `/\S+@\S+\.\S+/.test(s)`: unanchored, so a match anywhere in `s` suffices. */
  predicate MatchesEmail(s: string)
  {
    exists at, dot | 0 <= at < |s| && 0 <= dot < |s| :: EmailMatchAt(s, at, dot)
  }

  /** A `.` matches any character but the four line terminators. */
  predicate IsLineTerminator(c: char)
  {
    c == '\n' || c == '\r' || c as int == 0x2028 || c as int == 0x2029
  }

  /** `/^https?:\/\/.+/.test(s)`: the scheme is case-sensitive, and at least one character must follow the slashes. */
  predicate MatchesUrl(s: string)
  {
    || (StartsWith(s, "http://") && |s| > 7 && !IsLineTerminator(s[7]))
    || (StartsWith(s, "https://") && |s| > 8 && !IsLineTerminator(s[8]))
  }

  /** The item predicates of the `validators` object. */
  datatype Kind = String | Number | Boolean | Uuid | Email | Url | Positive | NonEmpty

  /** `validators[kind](item)` */
  predicate Holds(kind: Kind, item: Value)
  {
    match kind
    case String => item.Str?
    case Number => item.Num?
    case Boolean => item.Bool?
    case Uuid => item.Str? && IsUUID(item.s)
    case Email => item.Str? && MatchesEmail(item.s)
    case Url => item.Str? && MatchesUrl(item.s)
    case Positive => item.Num? && item.n > 0.0
    case NonEmpty => item.Str? && |Trim(item.s)| > 0
  }

  /** Every predicate but `number`, `boolean` and `positive` accepts only strings; `positive` only numbers. */
  lemma StringKinds(kind: Kind, item: Value)
    requires Holds(kind, item)
    ensures kind !in {Number, Boolean, Positive} ==> item.Str?
    ensures kind == Positive ==> item.Num? && item.n > 0.0
  {
  }

  /** `nonEmpty` holds exactly for strings with a character that is not whitespace. */
  lemma NonEmptyMeansVisible(item: Value)
    ensures Holds(NonEmpty, item) <==> item.Str? && exists i | 0 <= i < |item.s| :: NotSpace(item.s[i])
  {
    if item.Str? {
      TrimEmptyIff(item.s);
    }
  }

  /** `local@domain.tld` with three non-empty parts free of whitespace is an email. */
  lemma EmailShape(local: string, domain: string, tld: string)
    requires local != [] && domain != [] && tld != []
    requires forall i | 0 <= i < |local| :: NotSpace(local[i])
    requires forall i | 0 <= i < |domain| :: NotSpace(domain[i])
    requires forall i | 0 <= i < |tld| :: NotSpace(tld[i])
    ensures Holds(Email, Str(local + "@" + domain + "." + tld))
  {
    var s := local + "@" + domain + "." + tld;
    var at, dot := |local|, |local| + 1 + |domain|;
    assert s[at - 1] == local[|local| - 1];
    assert s[dot + 1] == tld[0];
    assert forall k | at < k < dot :: s[k] == domain[k - at - 1];
    assert EmailMatchAt(s, at, dot);
  }

  /** The email pattern is unanchored: whatever surrounds a match, whitespace included, the text still passes. */
  lemma EmailUnanchored(before: string, s: string, after: string)
    requires MatchesEmail(s)
    ensures MatchesEmail(before + s + after)
  {
    var at, dot :| 0 <= at < |s| && 0 <= dot < |s| && EmailMatchAt(s, at, dot);
    var t := before + s + after;
    var n := |before|;
    assert t[n..n + |s|] == s;
    forall k | at - 1 <= k <= dot + 1
      ensures t[n + k] == s[k]
    {
      assert t[n..n + |s|][k] == s[k];
    }
    assert EmailMatchAt(t, n + at, n + dot);
  }

  /** An email always has an `@` followed, later, by a `.`. */
  lemma EmailNeedsAtAndDot(s: string)
    requires MatchesEmail(s)
    ensures exists at, dot | 0 <= at < dot < |s| :: s[at] == '@' && s[dot] == '.'
  {
    var at, dot :| 0 <= at < |s| && 0 <= dot < |s| && EmailMatchAt(s, at, dot);
    assert s[at] == '@' && s[dot] == '.';
  }

  /** After `http://` or `https://`, the URL predicate asks only for a first character that is not a line terminator. */
  lemma UrlAfterScheme(rest: string)
    ensures Holds(Url, Str("http://" + rest)) <==> rest != [] && !IsLineTerminator(rest[0])
    ensures Holds(Url, Str("https://" + rest)) <==> rest != [] && !IsLineTerminator(rest[0])
  {
    var h := "http://" + rest;
    var hs := "https://" + rest;
    assert h[..7] == "http://";
    assert hs[..8] == "https://";
    assert |h| > 7 ==> h[7] == rest[0];
    assert |hs| > 8 ==> hs[8] == rest[0];
    assert h[4] == ':' && hs[4] == 's';
    assert !StartsWith(h, "https://");
    assert !StartsWith(hs, "http://");
  }

  // -----------------------------------------------------------------------
  // arrayOf and varChar

  /** The `arrayOf` rule: an array whose every item satisfies the validator (vacuously so when empty). */
  predicate ArrayOf(v: Value, validator: Value -> bool)
  {
    v.Arr? && forall i | 0 <= i < |v.items| :: validator(v.items[i])
  }

  /**
   * The messages the `arrayOf` chain records, in order: a value that is not
   * an array fails `isArray` and also the custom check, which has no
   * `every` to call; an array fails only the custom check, and only when
   * some item is rejected.
   */
  function ArrayOfErrors(field: string, v: Value, validator: Value -> bool, errorMessage: Option<string>): (errors: seq<string>)
    ensures errors == [] <==> ArrayOf(v, validator)
    ensures !v.Arr? ==> |errors| == 2 && errors[0] == "|" + field + "| must be an array"
    ensures v.Arr? ==> |errors| <= 1
    ensures errors != [] ==> errors[|errors| - 1] == MessageOr(errorMessage, "|" + field + "| contains invalid items")
  {
    var invalid := MessageOr(errorMessage, "|" + field + "| contains invalid items");
    if !v.Arr? then ["|" + field + "| must be an array", invalid]
    else if forall i | 0 <= i < |v.items| :: validator(v.items[i]) then []
    else [invalid]
  }

  /** An array passes exactly when both of its parts pass. */
  lemma ArrayOfAppend(xs: seq<Value>, ys: seq<Value>, validator: Value -> bool)
    ensures ArrayOf(Arr(xs + ys), validator) <==> ArrayOf(Arr(xs), validator) && ArrayOf(Arr(ys), validator)
  {
    var zs := xs + ys;
    assert forall i | 0 <= i < |xs| :: zs[i] == xs[i];
    assert forall i | 0 <= i < |ys| :: zs[|xs| + i] == ys[i];
  }

  /** The `varChar` rule: a string whose trimmed length lies between 1 and `max` (255 unless given). */
  predicate VarChar(v: Value, max: nat := 255)
  {
    v.Str? && 1 <= |Trim(v.s)| <= max
  }

  /** What `varChar` accepts, `nonEmpty` accepts; a longer limit accepts at least as much. */
  lemma VarCharBounds(v: Value, max: nat, larger: nat)
    requires max <= larger
    ensures VarChar(v, max) ==> Holds(NonEmpty, v)
    ensures VarChar(v, max) ==> VarChar(v, larger)
    ensures VarChar(v) <==> v.Str? && |Trim(v.s)| != 0 && |Trim(v.s)| <= 255
  {
  }
}
