/**
 * `scrape_gold_volume`: the traded volume read from the quote page's
 * `QuoteStrip-volume` element, cleaned and validated.
 *
 * Fetching the page, raising on an error status and parsing the markup are
 * not modelled; what they produce is the input `FetchOutcome`.
 */
module Volume {
  import opened Options
  import opened Text

  /** What fetching and parsing the quote page gave. */
  datatype FetchOutcome =
    | FetchFailed               // the GET or the parse raised, or the status was an error
    | ElementMissing            // the page has no `div` of class `QuoteStrip-volume`
    | ElementText(text: string) // the text of that element

  /**
   * Deletes every comma, trims whitespace at both ends, and accepts the
   * result only if it is a non-empty run of digits.
   */
  function CleanVolume(text: string): (r: Option<string>)
    ensures r.Some? ==> IsDigitString(r.value)
  {
    var cleaned := Strip(Remove(text, ','));
    if IsDigitString(cleaned) then Some(cleaned) else None
  }

  /** The whole of `scrape_gold_volume`: every failure is "no value", nothing raises. */
  function ScrapeVolume(fetched: FetchOutcome): (r: Option<string>)
    ensures r.Some? ==> fetched.ElementText? && IsDigitString(r.value)
  {
    match fetched
    case FetchFailed => None
    case ElementMissing => None
    case ElementText(text) => CleanVolume(text)
  }

  // An independent description of the texts the cleaner accepts: padding of
  // whitespace and commas, a body of digits and commas holding at least one
  // digit, and padding again.

  predicate IsPadding(s: string) {
    forall k :: 0 <= k < |s| ==> IsSpace(s[k]) || s[k] == ','
  }

  predicate IsBody(s: string) {
    && (forall k :: 0 <= k < |s| ==> IsDigit(s[k]) || s[k] == ',')
    && (exists k :: 0 <= k < |s| && IsDigit(s[k]))
  }

  /** `text[..i]` and `text[j..]` are padding and `text[i..j]` is the body. */
  predicate VolumeLayout(text: string, i: int, j: int) {
    && 0 <= i <= j <= |text|
    && IsPadding(text[..i])
    && IsBody(text[i..j])
    && IsPadding(text[j..])
  }

  ghost predicate WellFormedVolumeText(text: string) {
    exists i, j :: VolumeLayout(text, i, j)
  }

  /** Padding is exactly what loses all but whitespace when its commas go. */
  lemma {:induction false} PaddingRemoved(s: string)
    ensures IsPadding(s) <==> AllSpace(Remove(s, ','))
  {
    var d := Remove(s, ',');
    RemoveMembers(s, ',');
    if IsPadding(s) {
      forall k | 0 <= k < |d| ensures IsSpace(d[k]) {
        assert d[k] in s;
        var m :| 0 <= m < |s| && s[m] == d[k];
      }
    }
    if AllSpace(d) {
      forall k | 0 <= k < |s| ensures IsSpace(s[k]) || s[k] == ',' {
        if s[k] != ',' {
          assert s[k] in d;
          var m :| 0 <= m < |d| && d[m] == s[k];
        }
      }
    }
  }

  /** A body is exactly what leaves a non-empty run of digits when its commas go. */
  lemma {:induction false} BodyRemoved(s: string)
    ensures IsBody(s) <==> IsDigitString(Remove(s, ','))
  {
    var d := Remove(s, ',');
    RemoveMembers(s, ',');
    if IsBody(s) {
      var k :| 0 <= k < |s| && IsDigit(s[k]);
      assert !IsSpace(s[k]);
      assert s[k] in d;
      forall n | 0 <= n < |d| ensures IsDigit(d[n]) {
        assert d[n] in s;
        var m :| 0 <= m < |s| && s[m] == d[n];
      }
    }
    if IsDigitString(d) {
      assert d[0] in s;
      var m :| 0 <= m < |s| && s[m] == d[0];
      forall k | 0 <= k < |s| ensures IsDigit(s[k]) || s[k] == ',' {
        if s[k] != ',' {
          assert s[k] in d;
          var n :| 0 <= n < |d| && d[n] == s[k];
        }
      }
    }
  }

  /** Text of the described shape is accepted, and the volume is its digits in order. */
  lemma LayoutAccepted(text: string, i: int, j: int)
    requires VolumeLayout(text, i, j)
    ensures CleanVolume(text) == Some(KeepDigits(text))
  {
    LayoutCleansToBody(text, i, j);
    LayoutDigitsAreBodyDigits(text, i, j);
  }

  lemma LayoutCleansToBody(text: string, i: int, j: int)
    requires VolumeLayout(text, i, j)
    ensures CleanVolume(text) == Some(Remove(text[i..j], ','))
  {
    var pre, body, post := text[..i], text[i..j], text[j..];
    assert text == pre + body + post;
    RemoveAppend(pre + body, post, ',');
    RemoveAppend(pre, body, ',');
    var p, m, q := Remove(pre, ','), Remove(body, ','), Remove(post, ',');
    assert Remove(text, ',') == p + m + q;
    PaddingRemoved(pre);
    PaddingRemoved(post);
    BodyRemoved(body);
    assert !IsSpace(m[0]);
    assert !IsSpace(m[|m| - 1]);
    StripOfPadded(p, m, q);
    assert Strip(Remove(text, ',')) == m;
  }

  lemma LayoutDigitsAreBodyDigits(text: string, i: int, j: int)
    requires VolumeLayout(text, i, j)
    ensures KeepDigits(text) == Remove(text[i..j], ',')
  {
    var pre, body, post := text[..i], text[i..j], text[j..];
    assert text == pre + body + post;
    KeepDigitsAppend(pre + body, post);
    KeepDigitsAppend(pre, body);
    KeepDigitsOfDigitsAndCommas(body);
    NoDigitsInPadding(pre);
    NoDigitsInPadding(post);
    assert KeepDigits(text) == [] + Remove(body, ',') + [];
    assert [] + Remove(body, ',') + [] == Remove(body, ',');
  }

  lemma NoDigitsInPadding(s: string)
    requires IsPadding(s)
    ensures KeepDigits(s) == []
  {
  }

  /** Every accepted text has the described shape. */
  lemma AcceptedHasLayout(text: string) returns (i: int, j: int)
    requires CleanVolume(text).Some?
    ensures VolumeLayout(text, i, j)
  {
    i, j := StripsToDigitsHasLayout(text, Remove(text, ','));
  }

  lemma StripsToDigitsHasLayout(text: string, d: string) returns (i: int, j: int)
    requires d == Remove(text, ',') && IsDigitString(Strip(d))
    ensures VolumeLayout(text, i, j)
  {
    var a := LeadingPadding(text);
    var n := BodyThenPadding(text[a..], d);
    i := a;
    j := LayoutFromParts(text, a, n);
  }

  /** The part of `text` that becomes the leading whitespace of the comma-free text. */
  lemma LeadingPadding(text: string) returns (i: nat)
    ensures i <= |text|
    ensures IsPadding(text[..i])
    ensures Remove(text[i..], ',') == LStrip(Remove(text, ','))
  {
    var d := Remove(text, ',');
    var a := |d| - |LStrip(d)|;
    i := RemoveSplit(text, ',', a);
    PaddingRemoved(text[..i]);
  }

  /**
   * Text whose commas deleted leave the whitespace-trimmed-at-the-start form
   * of `d`, where `d` strips to a run of digits, is a body followed by padding.
   */
  lemma BodyThenPadding(rest: string, d: string) returns (n: nat)
    requires Remove(rest, ',') == LStrip(d)
    requires IsDigitString(Strip(d))
    ensures n <= |rest|
    ensures IsBody(rest[..n]) && IsPadding(rest[n..])
  {
    var v := Strip(d);
    n := RemoveSplit(rest, ',', |v|);
    BodyRemoved(rest[..n]);
    PaddingRemoved(rest[n..]);
  }

  lemma LayoutFromParts(text: string, i: nat, n: nat) returns (j: int)
    requires i + n <= |text|
    requires IsPadding(text[..i]) && IsBody(text[i..][..n]) && IsPadding(text[i..][n..])
    ensures VolumeLayout(text, i, j)
  {
    SlicesOfSuffix(text, i, n);
    j := i + n;
  }

  /**
   * The cleaner accepts exactly the texts of the described shape, and what
   * it returns is the text's digits in their order.
   */
  lemma CleanVolumeAcceptsExactlyLayouts(text: string)
    ensures CleanVolume(text).Some? <==> WellFormedVolumeText(text)
    ensures CleanVolume(text).Some? ==> CleanVolume(text).value == KeepDigits(text)
  {
    if WellFormedVolumeText(text) {
      var i, j :| VolumeLayout(text, i, j);
      LayoutAccepted(text, i, j);
    }
    if CleanVolume(text).Some? {
      var i, j := AcceptedHasLayout(text);
      LayoutAccepted(text, i, j);
    }
  }

  /** A cleaned volume is a fixed point of the cleaner. */
  lemma CleanVolumeIdempotent(text: string)
    requires CleanVolume(text).Some?
    ensures CleanVolume(CleanVolume(text).value) == CleanVolume(text)
  {
    var v := CleanVolume(text).value;
    DigitsHaveNoComma(v);
    RemoveAbsent(v, ',');
    DigitsAreTrimmedAlready(v);
  }

  /** Which part of a layout a position falls in decides what character it may hold. */
  lemma LayoutAt(text: string, i: int, j: int, p: int)
    requires VolumeLayout(text, i, j) && 0 <= p < |text|
    ensures p < i || j <= p ==> IsSpace(text[p]) || text[p] == ','
    ensures i <= p < j ==> IsDigit(text[p]) || text[p] == ','
  {
  }

  /**
   * Digits in groups of three separated by commas, as the page shows a
   * quote ("228,285"), lose their separators.
   */
  lemma AcceptsGroupedThousands(a: string, b: string)
    requires IsDigitString(a) && IsDigitString(b)
    ensures CleanVolume(a + "," + b) == Some(a + b)
  {
    DigitsHaveNoComma(a);
    DigitsHaveNoComma(b);
    CommaJoined(a, b);
    assert IsDigitString(a + b);
    DigitsAreTrimmedAlready(a + b);
  }

  /** Every character of an accepted text is a digit, a comma or whitespace. */
  lemma AcceptedCharacter(text: string, k: int)
    requires 0 <= k < |text|
    ensures CleanVolume(text).Some? ==> IsDigit(text[k]) || IsSpace(text[k]) || text[k] == ','
  {
    if CleanVolume(text).Some? {
      var i, j := AcceptedHasLayout(text);
      LayoutAt(text, i, j, k);
    }
  }

  /**
   * A character that is neither a digit, a comma nor whitespace ("1.5",
   * "N/A") anywhere in the text makes it no volume.
   */
  lemma RejectsForeignCharacter(text: string, k: int)
    requires 0 <= k < |text|
    requires !IsDigit(text[k]) && !IsSpace(text[k]) && text[k] != ','
    ensures CleanVolume(text) == None
  {
    AcceptedCharacter(text, k);
  }

  /** In an accepted text, whatever lies between two digits is a digit or a comma. */
  lemma AcceptedBetweenDigits(text: string, i: int, k: int, j: int)
    requires 0 <= i < k < j < |text|
    requires IsDigit(text[i]) && IsDigit(text[j])
    ensures CleanVolume(text).Some? ==> IsDigit(text[k]) || text[k] == ','
  {
    if CleanVolume(text).Some? {
      var b, e := AcceptedHasLayout(text);
      assert !IsSpace(text[i]);
      assert !IsSpace(text[j]);
      LayoutAt(text, b, e, i);
      LayoutAt(text, b, e, j);
      LayoutAt(text, b, e, k);
    }
  }

  /** Whitespace between two digits ("1 234") makes the text no volume. */
  lemma RejectsSpaceBetweenDigits(text: string, i: int, k: int, j: int)
    requires 0 <= i < k < j < |text|
    requires IsDigit(text[i]) && IsSpace(text[k]) && IsDigit(text[j])
    ensures CleanVolume(text) == None
  {
    AcceptedBetweenDigits(text, i, k, j);
  }

  /** An accepted text holds a digit. */
  lemma AcceptedHasDigit(text: string) returns (k: int)
    requires CleanVolume(text).Some?
    ensures 0 <= k < |text| && IsDigit(text[k])
  {
    CleanVolumeAcceptsExactlyLayouts(text);
    var v := CleanVolume(text).value;
    KeepDigitsMembers(text);
    assert v[0] in text;
    k :| 0 <= k < |text| && text[k] == v[0];
  }

  /** Text without any digit ("", " , ") is no volume: `"".isdigit()` is false. */
  lemma RejectsTextWithoutDigits(text: string)
    requires forall k :: 0 <= k < |text| ==> !IsDigit(text[k])
    ensures CleanVolume(text) == None
  {
    if CleanVolume(text).Some? {
      var k := AcceptedHasDigit(text);
    }
  }

  /** Deleting the comma that joins two comma-free texts concatenates them. */
  lemma CommaJoined(a: string, b: string)
    requires ',' !in a && ',' !in b
    ensures Remove(a + "," + b, ',') == a + b
  {
    RemoveAbsent(a, ',');
    RemoveAbsent(b, ',');
    RemoveAppend(a, ",", ',');
    assert Remove(",", ',') == [];
    assert Remove(a + ",", ',') == a;
    RemoveAppend(a + ",", b, ',');
  }

  lemma DigitsHaveNoComma(s: string)
    requires IsDigitString(s)
    ensures ',' !in s
  {
  }

  lemma DigitsAreTrimmedAlready(s: string)
    requires IsDigitString(s)
    ensures Strip(s) == s
  {
    assert !IsSpace(s[0]);
    assert !IsSpace(s[|s| - 1]);
    StripOfPadded([], s, []);
    assert [] + s + [] == s;
  }
}
