/** The cache probe of `buildImage`: the image name is turned into a pattern
    and the captured `docker images` listing is searched for it. The regular
    expressions the code compiles are literal apart from one ` +`, so the
    search is written out here as a scan over the listing. */
module Probe {
  import opened JavaStrings

  /** The two patterns the code can compile: `"\n" + quote(name) + " +" +
      quote(tag)` when the image name holds a colon, and `"\n" +
      quote(imageName) + " "` when it does not. */
  datatype Pattern =
    | NameSpacesTag(name: string, tag: string)
    | NameSpace(name: string)

  /** The pattern for an image name, split at its first colon only. */
  function ProbePattern(imageName: string): (p: Pattern)
    ensures p.NameSpacesTag? <==> ':' in imageName
    ensures p.NameSpacesTag? ==> ':' !in p.name && imageName == p.name + [':'] + p.tag
    ensures p.NameSpace? ==> p.name == imageName
  {
    var nameTag := SplitFirst(imageName, ':');
    if |nameTag| > 1 then NameSpacesTag(nameTag[0], nameTag[1]) else NameSpace(imageName)
  }

  function Spaces(k: nat): (r: string)
    ensures |r| == k && forall i :: 0 <= i < k ==> r[i] == ' '
  {
    seq(k, _ => ' ')
  }

  /** ` +` followed by the literal `tag` matches at the start of `s`, with
      the backtracking a regular-expression engine does over the spaces. */
  predicate SpacesThenTag(s: string, tag: string)
    decreases |s|
  {
    |s| > 0 && s[0] == ' ' && (StartsWith(s[1..], tag) || SpacesThenTag(s[1..], tag))
  }

  /** The pattern matches at the start of `s`. */
  predicate MatchesAt(p: Pattern, s: string)
  {
    match p
    case NameSpacesTag(name, tag) =>
      StartsWith(s, "\n" + name) && SpacesThenTag(s[1 + |name|..], tag)
    case NameSpace(name) =>
      StartsWith(s, "\n" + name + " ")
  }

  /** `Matcher.find()` from the start of `s`: the pattern matches at some
      position. */
  predicate Find(p: Pattern, s: string)
    decreases |s|
  {
    MatchesAt(p, s) || (|s| > 0 && Find(p, s[1..]))
  }

  /** The probe's verdict: the listing shows the image. */
  predicate ImagePresent(listing: string, imageName: string)
  {
    Find(ProbePattern(imageName), listing)
  }

  // ---------------------------------------------------------------------------
  // What the search means
  // ---------------------------------------------------------------------------

  lemma {:induction false} SpacesThenTagIff(s: string, tag: string)
    ensures SpacesThenTag(s, tag) <==> exists k :: 1 <= k && StartsWith(s, Spaces(k) + tag)
    decreases |s|
  {
    if SpacesThenTag(s, tag) {
      if StartsWith(s[1..], tag) {
        assert StartsWith(s, Spaces(1) + tag) by {
          assert s == [s[0]] + s[1..];
        }
      } else {
        SpacesThenTagIff(s[1..], tag);
        var k :| 1 <= k && StartsWith(s[1..], Spaces(k) + tag);
        assert Spaces(k + 1) + tag == [' '] + (Spaces(k) + tag);
        assert s == [s[0]] + s[1..];
        assert StartsWith(s, Spaces(k + 1) + tag);
      }
    }
    if exists k :: 1 <= k && StartsWith(s, Spaces(k) + tag) {
      var k :| 1 <= k && StartsWith(s, Spaces(k) + tag);
      assert s[0] == ' ';
      assert Spaces(k) + tag == [' '] + (Spaces(k - 1) + tag);
      assert StartsWith(s[1..], Spaces(k - 1) + tag);
      if k == 1 {
        assert Spaces(0) + tag == tag;
      } else {
        SpacesThenTagIff(s[1..], tag);
      }
    }
  }

  /** A name-and-tag pattern matches at the start of `s` exactly when `s`
      begins with a newline, the name, one or more spaces and the tag. */
  lemma MatchesAtNameTagIff(name: string, tag: string, s: string)
    ensures MatchesAt(NameSpacesTag(name, tag), s)
        <==> exists k :: 1 <= k && StartsWith(s, "\n" + name + Spaces(k) + tag)
  {
    var n := 1 + |name|;
    if StartsWith(s, "\n" + name) {
      SpacesThenTagIff(s[n..], tag);
      forall k | 1 <= k
        ensures StartsWith(s, "\n" + name + Spaces(k) + tag) <==> StartsWith(s[n..], Spaces(k) + tag)
      {
        assert "\n" + name + Spaces(k) + tag == ("\n" + name) + (Spaces(k) + tag);
        PrefixSplit(s, "\n" + name, Spaces(k) + tag);
      }
    } else {
      forall k | 1 <= k
        ensures !StartsWith(s, "\n" + name + Spaces(k) + tag)
      {
        assert "\n" + name + Spaces(k) + tag == ("\n" + name) + (Spaces(k) + tag);
        PrefixSplit(s, "\n" + name, Spaces(k) + tag);
      }
    }
  }

  /** `s` begins with `a + b` exactly when it begins with `a` and the rest
      begins with `b`. */
  lemma PrefixSplit(s: string, a: string, b: string)
    ensures StartsWith(s, a + b) <==> StartsWith(s, a) && StartsWith(s[|a|..], b)
  {
    if StartsWith(s, a + b) {
      assert s[..|a|] == (a + b)[..|a|] == a;
      assert s[|a|..][..|b|] == s[|a|..|a| + |b|] == (a + b)[|a|..] == b;
    }
    if StartsWith(s, a) && StartsWith(s[|a|..], b) {
      assert s[..|a| + |b|] == s[..|a|] + s[|a|..][..|b|];
    }
  }

  /** The search succeeds exactly when the pattern matches at some position
      of the listing. */
  lemma {:induction false} FindIff(p: Pattern, s: string)
    ensures Find(p, s) <==> exists i :: 0 <= i <= |s| && MatchesAt(p, s[i..])
    decreases |s|
  {
    assert s[0..] == s;
    if |s| > 0 {
      FindIff(p, s[1..]);
      if Find(p, s[1..]) {
        var i :| 0 <= i <= |s| - 1 && MatchesAt(p, s[1..][i..]);
        assert s[1..][i..] == s[i + 1..];
      }
      if exists i :: 0 <= i <= |s| && MatchesAt(p, s[i..]) {
        var i :| 0 <= i <= |s| && MatchesAt(p, s[i..]);
        if i > 0 {
          assert s[1..][i - 1..] == s[i..];
        }
      }
    }
  }

  /** Probe matching for an image name with a colon, split at its first
      colon: present exactly when the listing holds a newline, the name, one
      or more spaces and then the tag, somewhere. */
  lemma ImagePresentNameTag(listing: string, name: string, tag: string)
    requires ':' !in name
    ensures ImagePresent(listing, name + [':'] + tag)
        <==> exists i, k :: 0 <= i <= |listing| && 1 <= k
               && StartsWith(listing[i..], "\n" + name + Spaces(k) + tag)
  {
    SplitFirstJoin(name, tag, ':');
    var p := NameSpacesTag(name, tag);
    assert ProbePattern(name + [':'] + tag) == p;
    FindIff(p, listing);
    forall i | 0 <= i <= |listing|
      ensures MatchesAt(p, listing[i..])
          <==> exists k :: 1 <= k && StartsWith(listing[i..], "\n" + name + Spaces(k) + tag)
    {
      MatchesAtNameTagIff(name, tag, listing[i..]);
    }
  }

  /** Probe matching for an image name without a colon: present exactly when
      the listing holds a newline, the whole name and a space, somewhere. */
  lemma ImagePresentName(listing: string, imageName: string)
    requires ':' !in imageName
    ensures ImagePresent(listing, imageName)
        <==> exists i :: 0 <= i <= |listing| && StartsWith(listing[i..], "\n" + imageName + " ")
  {
    FindIff(NameSpace(imageName), listing);
  }

  // ---------------------------------------------------------------------------
  // Consequences of the exact pattern
  // ---------------------------------------------------------------------------

  /** Every match starts with a newline, so text before the first newline
      (the first line of the listing) never takes part in a match. */
  lemma {:induction false} FirstLineNeverMatches(p: Pattern, first: string, rest: string)
    requires '\n' !in first
    ensures Find(p, first + rest) <==> Find(p, rest)
    decreases |first|
  {
    if |first| > 0 {
      var s := first + rest;
      assert s[0] == first[0] != '\n';
      assert !MatchesAt(p, s);
      assert s[1..] == first[1..] + rest;
      FirstLineNeverMatches(p, first[1..], rest);
    } else {
      assert first + rest == rest;
    }
  }

  /** A listing without a newline never shows any image. */
  lemma SingleLineListingNeverMatches(listing: string, imageName: string)
    requires '\n' !in listing
    ensures !ImagePresent(listing, imageName)
  {
    var p := ProbePattern(imageName);
    FirstLineNeverMatches(p, listing, "");
    assert listing + "" == listing;
    assert !MatchesAt(p, "");
  }

  lemma {:induction false} SpacesThenTagExtend(s: string, tag: string, t: string)
    requires SpacesThenTag(s, tag)
    ensures SpacesThenTag(s + t, tag)
    decreases |s|
  {
    assert (s + t)[1..] == s[1..] + t;
    if StartsWith(s[1..], tag) {
      StartsWithExtend(s[1..], tag, t);
    } else {
      SpacesThenTagExtend(s[1..], tag, t);
    }
  }

  /** Nothing bounds a match on the right: once the listing shows the image,
      it still does whatever text follows. */
  lemma {:induction false} FindExtend(p: Pattern, s: string, t: string)
    requires Find(p, s)
    ensures Find(p, s + t)
    decreases |s|
  {
    if MatchesAt(p, s) {
      match p
      case NameSpacesTag(name, tag) =>
        StartsWithExtend(s, "\n" + name, t);
        assert (s + t)[1 + |name|..] == s[1 + |name|..] + t;
        SpacesThenTagExtend(s[1 + |name|..], tag, t);
      case NameSpace(name) =>
        StartsWithExtend(s, "\n" + name + " ", t);
    } else {
      assert (s + t)[1..] == s[1..] + t;
      FindExtend(p, s[1..], t);
    }
  }

  /** A listing row whose tag merely begins with the wanted tag (a longer,
      different tag) is reported as the wanted image. */
  lemma LongerTagIsPresent(header: string, name: string, tag: string, spaces: nat, more: string)
    requires ':' !in name && 1 <= spaces
    ensures ImagePresent(header + "\n" + name + Spaces(spaces) + tag + more, name + [':'] + tag)
  {
    var listing := header + "\n" + name + Spaces(spaces) + tag + more;
    var i := |header|;
    assert listing[i..] == ("\n" + name + Spaces(spaces) + tag) + more;
    StartsWithExtend("\n" + name + Spaces(spaces) + tag, "\n" + name + Spaces(spaces) + tag, more);
    assert StartsWith(listing[i..], "\n" + name + Spaces(spaces) + tag);
    ImagePresentNameTag(listing, name, tag);
  }
}
