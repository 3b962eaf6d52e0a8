/** The file-type test that `onDropFunc` applies before a dropped file is uploaded.

    The source tests the file's MIME type against the regular expression
    `jpeg|jpg|png|gif|svg|webp|apng|avif|bmp|ico|tiff`, which has no anchors and
    no flags: it succeeds exactly when one of the eleven literals occurs somewhere
    in the type, with upper and lower case distinguished. It is modelled here as
    that containment test, not as a regular-expression engine. */
module MimeFilter {

  /** The alternatives of the pattern, in the order the pattern lists them. */
  const FileTypes: seq<string> :=
    ["jpeg", "jpg", "png", "gif", "svg", "webp", "apng", "avif", "bmp", "ico", "tiff"]

  /** `p` occurs in `s` as a run of consecutive characters, found by trying
      each start position of `s` from the left. */
  predicate Contains(s: string, p: string)
    decreases |s|
  {
    p <= s || (|s| > 0 && Contains(s[1..], p))
  }

  /** Some alternative of `pats` occurs in `s`. */
  predicate ContainsAny(s: string, pats: seq<string>)
    decreases |pats|
  {
    |pats| > 0 && (Contains(s, pats[0]) || ContainsAny(s, pats[1..]))
  }

  /** The `fileTypes.test(type)` of `onDropFunc`. */
  predicate IsImageType(mimeType: string)
  {
    ContainsAny(mimeType, FileTypes)
  }

  /** `p` is found in `s` starting at index `i`: the independent, position-based
      reading of "the pattern matches somewhere in the string". */
  ghost predicate OccursAt(s: string, p: string, i: int)
  {
    0 <= i && i + |p| <= |s| && s[i..i + |p|] == p
  }

  /** The left-to-right scan finds `p` exactly when `p` occurs at some index. */
  lemma {:induction false} ContainsIff(s: string, p: string)
    ensures Contains(s, p) <==> exists i :: OccursAt(s, p, i)
    decreases |s|
  {
    if p <= s {
      assert s[0..|p|] == p;
      assert OccursAt(s, p, 0);
    } else if |s| > 0 {
      ContainsIff(s[1..], p);
      forall i | 0 < i
        ensures OccursAt(s, p, i) <==> OccursAt(s[1..], p, i - 1)
      {
        if i + |p| <= |s| {
          assert s[1..][i - 1..i - 1 + |p|] == s[i..i + |p|];
        }
      }
      assert !OccursAt(s, p, 0);
      if Contains(s[1..], p) {
        var j :| OccursAt(s[1..], p, j);
        assert OccursAt(s, p, j + 1);
      }
    } else {
      assert p != [];
    }
  }

  /** The test over a list of alternatives succeeds exactly when one of them is contained. */
  lemma {:induction false} ContainsAnyIff(s: string, pats: seq<string>)
    ensures ContainsAny(s, pats) <==> exists k :: 0 <= k < |pats| && Contains(s, pats[k])
    decreases |pats|
  {
    if |pats| > 0 {
      ContainsAnyIff(s, pats[1..]);
      if ContainsAny(s, pats[1..]) {
        var k :| 0 <= k < |pats[1..]| && Contains(s, pats[1..][k]);
        assert Contains(s, pats[k + 1]);
      }
      forall k | 0 <= k < |pats| && Contains(s, pats[k]) && k > 0
        ensures ContainsAny(s, pats[1..])
      {
        assert pats[1..][k - 1] == pats[k];
      }
    }
  }

  /** A MIME type is accepted exactly when one of the eleven literals occurs in it
      at some index: the meaning of an unanchored alternation. */
  lemma IsImageTypeIff(mimeType: string)
    ensures IsImageType(mimeType) <==>
      exists k, i :: 0 <= k < |FileTypes| && OccursAt(mimeType, FileTypes[k], i)
  {
    ContainsAnyIff(mimeType, FileTypes);
    forall k | 0 <= k < |FileTypes| {
      ContainsIff(mimeType, FileTypes[k]);
    }
  }

  /** Containment survives any text around the string: the test is not anchored. */
  lemma ContainsInContext(before: string, s: string, after: string, p: string)
    requires Contains(s, p)
    ensures Contains(before + s + after, p)
  {
    ContainsIff(s, p);
    var i :| OccursAt(s, p, i);
    var whole := before + s + after;
    assert whole[|before| + i..|before| + i + |p|] == s[i..i + |p|];
    assert OccursAt(whole, p, |before| + i);
    ContainsIff(whole, p);
  }

  /** An accepted type stays accepted whatever is written before or after it. */
  lemma ImageTypeInContext(before: string, mimeType: string, after: string)
    requires IsImageType(mimeType)
    ensures IsImageType(before + mimeType + after)
  {
    ContainsAnyIff(mimeType, FileTypes);
    var k :| 0 <= k < |FileTypes| && Contains(mimeType, FileTypes[k]);
    ContainsInContext(before, mimeType, after, FileTypes[k]);
    ContainsAnyIff(before + mimeType + after, FileTypes);
  }

  /** One character of `p` missing from `s` rules out every occurrence of `p`. */
  lemma MissingCharacterRefutes(s: string, p: string, j: int)
    requires 0 <= j < |p| && p[j] !in s
    ensures !Contains(s, p)
  {
    ContainsIff(s, p);
    forall i ensures !OccursAt(s, p, i) {
      if 0 <= i && i + |p| <= |s| {
        assert s[i..i + |p|][j] == s[i + j];
      }
    }
  }

  /** A type is refused when, for every alternative `FileTypes[k]`, its
      character at `missing[k]` does not appear in the type. */
  lemma RejectedByMissingCharacters(mimeType: string, missing: seq<int>)
    requires |missing| == |FileTypes|
    requires forall k :: 0 <= k < |FileTypes| ==>
      0 <= missing[k] < |FileTypes[k]| && FileTypes[k][missing[k]] !in mimeType
    ensures !IsImageType(mimeType)
  {
    forall k | 0 <= k < |FileTypes| ensures !Contains(mimeType, FileTypes[k]) {
      MissingCharacterRefutes(mimeType, FileTypes[k], missing[k]);
    }
    ContainsAnyIff(mimeType, FileTypes);
  }

  /** The common image types are accepted. */
  lemma CommonImageTypesAccepted()
    ensures IsImageType("image/png")
    ensures IsImageType("image/jpeg")
    ensures IsImageType("image/svg+xml")
  {
  }

  /** "image/x-icon" is accepted only because "ico" occurs inside "icon". */
  lemma IconAcceptedBySubstring()
    ensures OccursAt("image/x-icon", "ico", 8)
    ensures IsImageType("image/x-icon")
  {
    assert "image/x-icon"[8..11] == "ico";
    ContainsIff("image/x-icon", "ico");
    ContainsAnyIff("image/x-icon", FileTypes);
    assert FileTypes[9] == "ico";
  }

  /** A type holding none of the literals is refused. */
  lemma PlainTextRejected()
    ensures !IsImageType("text/plain")
  {
    RejectedByMissingCharacters("text/plain", [0, 0, 2, 0, 0, 0, 3, 1, 0, 1, 2]);
  }

  /** "image/heic" names an image, yet none of the literals occurs in it. */
  lemma HeicRejected()
    ensures !IsImageType("image/heic")
  {
    RejectedByMissingCharacters("image/heic", [0, 0, 0, 2, 0, 0, 1, 1, 0, 2, 0]);
  }

  /** A file whose browser reports no type at all is refused. */
  lemma EmptyTypeRejected()
    ensures !IsImageType("")
  {
    RejectedByMissingCharacters("", [0, 0, 0, 0, 0, 0, 0, 0, 0, 0, 0]);
  }

  /** The test distinguishes case, so upper-case spellings are refused. */
  lemma UpperCaseRejected()
    ensures !IsImageType("IMAGE/PNG")
  {
    RejectedByMissingCharacters("IMAGE/PNG", [0, 0, 0, 0, 0, 0, 0, 0, 0, 0, 0]);
  }
}
