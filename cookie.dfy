/** The widget's cookie helpers (templates/js/init_chat.js, setCookie and
    getCookie) over `document.cookie`, modelled as a string. */
module Cookie {
  import opened Text

  const DAY_MS: int := 24 * 60 * 60 * 1000

  /** What one `setCookie` call hands to the browser: name, value, the absolute
      expiry in milliseconds since the epoch, and the path. */
  datatype CookieWrite = CookieWrite(name: string, value: string, expiresAtMs: int, path: string)

  /** `setCookie(name, value, days)` at time `nowMs`: the expiry is `days` whole
      days after now, and the path is "/". */
  function SetCookieRecord(name: string, value: string, days: int, nowMs: int): (w: CookieWrite)
    ensures w.name == name && w.value == value && w.path == "/"
    ensures w.expiresAtMs - nowMs == days * 86400000
  {
    CookieWrite(name, value, nowMs + days * DAY_MS, "/")
  }

  /** `c` with leading spaces removed, one `substring(1)` at a time. */
  function LeadingSpacesGone(c: string): string
    decreases |c|
  {
    if |c| > 0 && c[0] == ' ' then LeadingSpacesGone(c[1..]) else c
  }

  /** What stripping leaves: a suffix of the segment that does not start with a
      space. Stated as a lemma rather than on the function, so that every
      cookie lookup in the widget's proofs stays cheap to unfold. */
  lemma {:induction false} LeadingSpacesGoneSpec(c: string)
    ensures var r := LeadingSpacesGone(c);
      (r == [] || r[0] != ' ') && |r| <= |c| && r == c[|c| - |r|..]
    decreases |c|
  {
    if |c| > 0 && c[0] == ' ' {
      LeadingSpacesGoneSpec(c[1..]);
      var r := LeadingSpacesGone(c[1..]);
      assert c[1..][|c[1..]| - |r|..] == c[|c| - |r|..];
    }
  }

  /** The first segment, in order, whose space-stripped text starts with `prefix`
      gives the rest of that text. */
  function FirstWithPrefix(segments: seq<string>, prefix: string): Option<string>
    decreases |segments|
  {
    if |segments| == 0 then None
    else
      var c := LeadingSpacesGone(segments[0]);
      if StartsWith(c, prefix) then Some(c[|prefix|..])
      else FirstWithPrefix(segments[1..], prefix)
  }

  /** The value `getCookie(name)` finds in the jar, or None for `null`. */
  function CookieValue(jar: string, name: string): Option<string>
  {
    FirstWithPrefix(Split(jar, ';'), name + "=")
  }

  /** Segment `i` of the jar, without its leading spaces, names the cookie. */
  predicate SegmentMatches(segments: seq<string>, prefix: string, i: int)
    requires 0 <= i < |segments|
  {
    StartsWith(LeadingSpacesGone(segments[i]), prefix)
  }

  /** A miss means that no segment matches. */
  lemma {:induction false} FirstWithPrefixMiss(segments: seq<string>, prefix: string)
    ensures FirstWithPrefix(segments, prefix).None? <==>
      forall i :: 0 <= i < |segments| ==> !SegmentMatches(segments, prefix, i)
    decreases |segments|
  {
    if |segments| > 0 {
      var rest := segments[1..];
      FirstWithPrefixMiss(rest, prefix);
      if SegmentMatches(segments, prefix, 0) {
        assert FirstWithPrefix(segments, prefix).Some?;
      } else {
        assert FirstWithPrefix(segments, prefix) == FirstWithPrefix(rest, prefix);
        if FirstWithPrefix(rest, prefix).None? {
          forall i | 0 <= i < |segments|
            ensures !SegmentMatches(segments, prefix, i)
          {
            if i > 0 {
              assert segments[i] == rest[i - 1];
              assert !SegmentMatches(rest, prefix, i - 1);
            }
          }
        } else {
          var k :| 0 <= k < |rest| && SegmentMatches(rest, prefix, k);
          assert segments[k + 1] == rest[k];
          assert SegmentMatches(segments, prefix, k + 1);
        }
      }
    }
  }

  /** The first match of the tail, moved past a head that does not match. */
  lemma ShiftMatch(segments: seq<string>, prefix: string, k: int)
    requires 0 <= k < |segments| - 1
    requires !SegmentMatches(segments, prefix, 0)
    requires SegmentMatches(segments[1..], prefix, k)
    requires forall j :: 0 <= j < k ==> !SegmentMatches(segments[1..], prefix, j)
    ensures segments[k + 1] == segments[1..][k]
    ensures SegmentMatches(segments, prefix, k + 1)
    ensures forall j :: 0 <= j < k + 1 ==> !SegmentMatches(segments, prefix, j)
  {
    forall j | 1 <= j < k + 1
      ensures !SegmentMatches(segments, prefix, j)
    {
      assert segments[j] == segments[1..][j - 1];
      assert !SegmentMatches(segments[1..], prefix, j - 1);
    }
  }

  /** A hit is the first segment that matches, with its text after the prefix. */
  lemma {:induction false} FirstWithPrefixHit(segments: seq<string>, prefix: string)
    ensures FirstWithPrefix(segments, prefix).Some? ==>
      exists i :: 0 <= i < |segments| && SegmentMatches(segments, prefix, i)
        && (forall j :: 0 <= j < i ==> !SegmentMatches(segments, prefix, j))
        && FirstWithPrefix(segments, prefix).value
           == LeadingSpacesGone(segments[i])[|prefix|..]
    decreases |segments|
  {
    if |segments| > 0 {
      var rest := segments[1..];
      if SegmentMatches(segments, prefix, 0) {
        assert FirstWithPrefix(segments, prefix).value
          == LeadingSpacesGone(segments[0])[|prefix|..];
      } else if FirstWithPrefix(rest, prefix).Some? {
        assert FirstWithPrefix(segments, prefix) == FirstWithPrefix(rest, prefix);
        FirstWithPrefixHit(rest, prefix);
        var k :| 0 <= k < |rest| && SegmentMatches(rest, prefix, k)
          && (forall j :: 0 <= j < k ==> !SegmentMatches(rest, prefix, j))
          && FirstWithPrefix(rest, prefix).value == LeadingSpacesGone(rest[k])[|prefix|..];
        ShiftMatch(segments, prefix, k);
        assert FirstWithPrefix(segments, prefix).value
          == LeadingSpacesGone(segments[k + 1])[|prefix|..];
      } else {
        assert FirstWithPrefix(segments, prefix) == FirstWithPrefix(rest, prefix);
      }
    }
  }

  /** The first-match search, stated without recursion: a hit is the first
      segment that matches, with its text after the prefix; a miss means that no
      segment matches. */
  lemma FirstWithPrefixSpec(segments: seq<string>, prefix: string)
    ensures FirstWithPrefix(segments, prefix).None? <==>
      forall i :: 0 <= i < |segments| ==> !SegmentMatches(segments, prefix, i)
    ensures FirstWithPrefix(segments, prefix).Some? ==>
      exists i :: 0 <= i < |segments| && SegmentMatches(segments, prefix, i)
        && (forall j :: 0 <= j < i ==> !SegmentMatches(segments, prefix, j))
        && FirstWithPrefix(segments, prefix).value
           == LeadingSpacesGone(segments[i])[|prefix|..]
  {
    FirstWithPrefixMiss(segments, prefix);
    FirstWithPrefixHit(segments, prefix);
  }

  /** `getCookie(name)`: split the jar on ';', strip each segment's leading
      spaces, and return what follows `name=` in the first segment that starts
      with it; `null` (None) when none does. */
  method GetCookie(jar: string, name: string) returns (r: Option<string>)
    ensures r == CookieValue(jar, name)
  {
    var nameEQ := name + "=";
    var ca := Split(jar, ';');
    var i := 0;
    while i < |ca|
      invariant 0 <= i <= |ca|
      invariant FirstWithPrefix(ca[i..], nameEQ) == FirstWithPrefix(ca, nameEQ)
    {
      var c := ca[i];
      while |c| > 0 && c[0] == ' '
        invariant LeadingSpacesGone(c) == LeadingSpacesGone(ca[i])
        decreases |c|
      {
        c := c[1..];
      }
      assert ca[i..][0] == ca[i] && ca[i..][1..] == ca[i + 1..];
      if StartsWith(c, nameEQ) {
        return Some(c[|nameEQ|..]);
      }
      i := i + 1;
    }
    return None;
  }

  /** The model of the browser's cookie store as seen through `document.cookie`:
      a written cookie becomes the first segment, and older segments stay
      behind it, shadowed for the same name. */
  function StoreCookie(jar: string, name: string, value: string): string
  {
    if jar == "" then name + "=" + value else name + "=" + value + "; " + jar
  }

  /** Stripping leading spaces ignores one more leading space. */
  lemma SpaceIgnored(c: string)
    ensures LeadingSpacesGone(" " + c) == LeadingSpacesGone(c)
  {
    assert (" " + c)[1..] == c;
  }

  /** Reading back a cookie just written gives the value written, whatever the
      jar held before: names and values of the widget's form (no ';', the name
      not starting with a space). */
  lemma StoreThenRead(jar: string, name: string, value: string)
    requires ';' !in name && ';' !in value && '=' !in name
    requires |name| > 0 && name[0] != ' '
    ensures CookieValue(StoreCookie(jar, name, value), name) == Some(value)
  {
    var seg := name + "=" + value;
    assert ';' !in seg by {
      forall k | 0 <= k < |seg| ensures seg[k] != ';' {
        if k < |name| { assert seg[k] == name[k]; }
        else if k > |name| { assert seg[k] == value[k - |name| - 1]; }
      }
    }
    if jar == "" {
      SplitNoSep(seg, ';');
    } else {
      assert StoreCookie(jar, name, value) == seg + [';'] + (" " + jar);
      SplitAtSep(seg, ';', " " + jar);
    }
    assert LeadingSpacesGone(seg) == seg;
    assert seg[..|name + "="|] == name + "=";
    assert seg[|name + "="|..] == value;
  }

  /** A cookie under another name is read as before the write, whatever the
      jar held, when the written segment does not start with `other=`. */
  lemma StoreKeepsOthers(jar: string, name: string, value: string, other: string)
    requires ';' !in name && ';' !in value
    requires |name| > 0 && name[0] != ' '
    requires !StartsWith(name + "=" + value, other + "=")
    ensures CookieValue(StoreCookie(jar, name, value), other) == CookieValue(jar, other)
  {
    var seg := name + "=" + value;
    assert ';' !in seg by {
      forall k | 0 <= k < |seg| ensures seg[k] != ';' {
        if k < |name| { assert seg[k] == name[k]; }
        else if k > |name| { assert seg[k] == value[k - |name| - 1]; }
      }
    }
    assert seg[0] == name[0];
    assert LeadingSpacesGone(seg) == seg;
    if jar == "" {
      SplitNoSep(seg, ';');
      assert StoreCookie(jar, name, value) == seg;
      assert FirstWithPrefix([seg], other + "=") == None by {
        assert [seg][1..] == [];
      }
      assert FirstWithPrefix([""], other + "=") == None by {
        assert [""][1..] == [];
      }
      return;
    }
    assert StoreCookie(jar, name, value) == seg + [';'] + (" " + jar);
    SplitAtSep(seg, ';', " " + jar);
    var parts := Split(jar, ';');
    var spaced := Split(" " + jar, ';');
    assert (" " + jar)[1..] == jar;
    assert spaced == [" " + parts[0]] + parts[1..];
    SpaceIgnored(parts[0]);
    assert FirstWithPrefix(spaced, other + "=") == FirstWithPrefix(parts, other + "=") by {
      assert spaced[1..] == parts[1..];
    }
  }
}
