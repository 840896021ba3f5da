/** Text helpers with Rust's `str` semantics, the device-name lists both binaries
    build from an enumeration, and the VB-Cable name tests they share. */
module Names {
  import opened Common

  // ---------------------------------------------------------------------------
  // Substrings and replacement
  // ---------------------------------------------------------------------------

  predicate StartsWith(s: string, prefix: string) {
    |prefix| <= |s| && s[..|prefix|] == prefix
  }

  /** `str::contains` with a string pattern: case-sensitive, true for the empty needle;
      a needle longer than the string never occurs in it. */
  predicate Contains(s: string, needle: string)
    ensures needle == [] ==> Contains(s, needle)
    ensures Contains(s, needle) ==> |needle| <= |s|
    decreases |s|
  {
    StartsWith(s, needle) || (s != [] && Contains(s[1..], needle))
  }

  /** `needle` occurs in `s` starting at index `i`. */
  predicate OccursAt(s: string, needle: string, i: int) {
    0 <= i <= |s| - |needle| && s[i..i + |needle|] == needle
  }

  /** The window view of `Contains`: some slice of `s` equals `needle`. */
  lemma {:induction false} ContainsIffWindow(s: string, needle: string)
    ensures Contains(s, needle) <==> exists i :: OccursAt(s, needle, i)
    decreases |s|
  {
    if s == [] {
      if needle == [] { assert OccursAt(s, needle, 0); }
    } else {
      ContainsIffWindow(s[1..], needle);
      if StartsWith(s, needle) {
        assert OccursAt(s, needle, 0);
      }
      if Contains(s[1..], needle) {
        var i :| OccursAt(s[1..], needle, i);
        assert s[1..][i..i + |needle|] == s[i + 1..i + 1 + |needle|];
        assert OccursAt(s, needle, i + 1);
      }
      if exists i :: OccursAt(s, needle, i) {
        var i :| OccursAt(s, needle, i);
        if i > 0 {
          assert s[1..][i - 1..i - 1 + |needle|] == s[i..i + |needle|];
          assert OccursAt(s[1..], needle, i - 1);
        } else {
          assert StartsWith(s, needle);
        }
      }
    }
  }

  /** A needle holding a character that `s` lacks does not occur in `s`. */
  lemma {:induction false} MissingCharNotContained(s: string, needle: string, c: char)
    requires c in needle && c !in s
    ensures !Contains(s, needle)
    decreases |s|
  {
    var k :| 0 <= k < |needle| && needle[k] == c;
    if |needle| <= |s| {
      assert s[..|needle|][k] != needle[k];
    }
    if s != [] {
      MissingCharNotContained(s[1..], needle, c);
    }
  }

  /** A string containing `a + b` contains `a`. */
  lemma {:induction false} ContainsPrefixOfNeedle(s: string, a: string, b: string)
    ensures Contains(s, a + b) ==> Contains(s, a)
    decreases |s|
  {
    if StartsWith(s, a + b) {
      assert s[..|a|] == (a + b)[..|a|] == a;
    } else if s != [] {
      ContainsPrefixOfNeedle(s[1..], a, b);
    }
  }

  /** `str::replace`: every occurrence of `pattern` found scanning left to right,
      without overlaps, is replaced by `replacement`. */
  function ReplaceAll(s: string, pattern: string, replacement: string): (r: string)
    requires pattern != []
    ensures |replacement| >= |pattern| ==> |r| >= |s|
    ensures |replacement| <= |pattern| ==> |r| <= |s|
    decreases |s|
  {
    if s == [] then []
    else if StartsWith(s, pattern) then replacement + ReplaceAll(s[|pattern|..], pattern, replacement)
    else [s[0]] + ReplaceAll(s[1..], pattern, replacement)
  }

  /** A string without the pattern comes back unchanged. */
  lemma {:induction false} ReplaceAllWithoutOccurrence(s: string, pattern: string, replacement: string)
    requires pattern != [] && !Contains(s, pattern)
    ensures ReplaceAll(s, pattern, replacement) == s
    decreases |s|
  {
    if s != [] {
      ReplaceAllWithoutOccurrence(s[1..], pattern, replacement);
      assert s == [s[0]] + s[1..];
    }
  }

  /** The first character of a rewritten non-empty string. */
  lemma ReplaceAllHead(u: string, pattern: string, replacement: string)
    requires pattern != [] && replacement != [] && u != []
    ensures ReplaceAll(u, pattern, replacement) != []
    ensures ReplaceAll(u, pattern, replacement)[0] ==
              if StartsWith(u, pattern) then replacement[0] else u[0]
  {
  }

  /** When the replacement starts with a character that `w` lacks, a prefix `w`
      of the rewritten string was already a prefix of the original. */
  lemma {:induction false} ReplacedPrefix(u: string, pattern: string, replacement: string, w: string)
    requires pattern != [] && replacement != [] && replacement[0] !in w
    ensures StartsWith(ReplaceAll(u, pattern, replacement), w) ==> StartsWith(u, w)
    decreases |u|
  {
    var t := ReplaceAll(u, pattern, replacement);
    if w != [] && u != [] && StartsWith(t, w) {
      ReplaceAllHead(u, pattern, replacement);
      assert t[0] == w[0] && w[0] in w;
      var rest := ReplaceAll(u[1..], pattern, replacement);
      assert t == [u[0]] + rest;
      assert rest[..|w| - 1] == t[1..|w|] == w[1..];
      ReplacedPrefix(u[1..], pattern, replacement, w[1..]);
      assert u[..|w|] == [u[0]] + u[1..][..|w| - 1];
    }
  }

  /** A needle cannot start inside a prefix `x` that lacks its first character. */
  lemma {:induction false} ContainsSkipsPrefix(x: string, y: string, needle: string)
    requires needle != [] && needle[0] !in x
    requires Contains(x + y, needle)
    ensures Contains(y, needle)
    decreases |x|
  {
    if x != [] {
      assert (x + y)[0] == x[0];
      assert (x + y)[1..] == x[1..] + y;
      ContainsSkipsPrefix(x[1..], y, needle);
    } else {
      assert x + y == y;
    }
  }

  /** Replacing every " Input" by " Output" leaves no " Input" behind: no occurrence
      can straddle a replacement, because " Output" has no other space and " Input"
      no other "O". */
  lemma {:induction false} NoInputAfterOutputRename(s: string)
    ensures !Contains(ReplaceAll(s, " Input", " Output"), " Input")
    decreases |s|
  {
    if s != [] {
      if StartsWith(s, " Input") {
        NoInputAfterOutputRename(s[6..]);
        RenamedOccurrence(s);
      } else {
        NoInputAfterOutputRename(s[1..]);
        assert " Input"[1..] == "Input";
        CopiedCharacter(s, " Input", " Output");
      }
    }
  }

  /** A leading " Input" becomes " Output", which cannot start another " Input". */
  lemma RenamedOccurrence(s: string)
    requires StartsWith(s, " Input")
    requires !Contains(ReplaceAll(s[6..], " Input", " Output"), " Input")
    ensures !Contains(ReplaceAll(s, " Input", " Output"), " Input")
  {
    var rest := ReplaceAll(s[6..], " Input", " Output");
    var t := ReplaceAll(s, " Input", " Output");
    assert t == " Output" + rest;
    assert t[1] != " Input"[1];
    assert t[1..] == "Output" + rest;
    if Contains("Output" + rest, " Input") {
      ContainsSkipsPrefix("Output", rest, " Input");
    }
  }

  /** A leading character that does not start the pattern is copied, and when the
      replacement's first character cannot follow the pattern's first one, the copy
      does not start the pattern either. */
  lemma CopiedCharacter(s: string, pattern: string, replacement: string)
    requires pattern != [] && replacement != [] && replacement[0] !in pattern[1..]
    requires s != [] && !StartsWith(s, pattern)
    requires !Contains(ReplaceAll(s[1..], pattern, replacement), pattern)
    ensures !Contains(ReplaceAll(s, pattern, replacement), pattern)
  {
    var rest := ReplaceAll(s[1..], pattern, replacement);
    var t := ReplaceAll(s, pattern, replacement);
    ReplaceAllCopiesHead(s, pattern, replacement);
    StartsWithHead(s, pattern);
    StartsWithHead(t, pattern);
    ReplacedPrefix(s[1..], pattern, replacement, pattern[1..]);
  }

  /** A string that does not start with the pattern keeps its first character. */
  lemma ReplaceAllCopiesHead(s: string, pattern: string, replacement: string)
    requires pattern != [] && s != [] && !StartsWith(s, pattern)
    ensures var t := ReplaceAll(s, pattern, replacement);
              t != [] && t[0] == s[0] && t[1..] == ReplaceAll(s[1..], pattern, replacement)
  {
  }

  /** A non-empty string starts with a non-empty needle exactly when their first
      characters agree and the tail starts with the rest of the needle. */
  lemma StartsWithHead(x: string, needle: string)
    requires x != [] && needle != []
    ensures StartsWith(x, needle) <==> x[0] == needle[0] && StartsWith(x[1..], needle[1..])
  {
    if |needle| <= |x| {
      assert x[..|needle|] == [x[0]] + x[1..][..|needle| - 1];
      assert needle == [needle[0]] + needle[1..];
    }
  }

  // ---------------------------------------------------------------------------
  // Device-name lists
  // ---------------------------------------------------------------------------

  /** Some device of the enumeration has a readable name satisfying `p`. */
  predicate AnyNameWhere(devices: seq<Option<string>>, p: string -> bool) {
    exists i :: 0 <= i < |devices| && devices[i].Some? && p(devices[i].value)
  }

  /** The readable names satisfying `p`, in enumeration order; unreadable names are skipped. */
  function NamesWhere(devices: seq<Option<string>>, p: string -> bool): (r: seq<string>)
    ensures |r| <= |devices|
    ensures forall n {:trigger n in r} :: n in r <==> Some(n) in devices && p(n)
    decreases |devices|
  {
    if devices == [] then []
    else
      var head := if devices[0].Some? && p(devices[0].value) then [devices[0].value] else [];
      assert forall n :: Some(n) in devices <==> Some(n) == devices[0] || Some(n) in devices[1..];
      head + NamesWhere(devices[1..], p)
  }

  /** Selecting names commutes with concatenating enumerations, so order is kept. */
  lemma {:induction false} NamesWhereAppend(a: seq<Option<string>>, b: seq<Option<string>>, p: string -> bool)
    ensures NamesWhere(a + b, p) == NamesWhere(a, p) + NamesWhere(b, p)
    decreases |a|
  {
    if a == [] {
      assert a + b == b;
    } else {
      assert (a + b)[0] == a[0];
      assert (a + b)[1..] == a[1..] + b;
      NamesWhereAppend(a[1..], b, p);
    }
  }

  /** One more device adds its name at the back exactly when it is readable and selected. */
  lemma NamesWhereSnoc(a: seq<Option<string>>, d: Option<string>, p: string -> bool)
    ensures NamesWhere(a + [d], p) ==
              NamesWhere(a, p) + (if d.Some? && p(d.value) then [d.value] else [])
  {
    NamesWhereAppend(a, [d], p);
    assert [d][1..] == [];
  }

  /** Some name is selected exactly when some readable name satisfies `p`. */
  lemma {:induction false} NamesWhereNonEmpty(devices: seq<Option<string>>, p: string -> bool)
    ensures NamesWhere(devices, p) != [] <==> AnyNameWhere(devices, p)
    decreases |devices|
  {
    if devices != [] {
      NamesWhereNonEmpty(devices[1..], p);
      if AnyNameWhere(devices[1..], p) {
        var i :| 0 <= i < |devices[1..]| && devices[1..][i].Some? && p(devices[1..][i].value);
        assert devices[i + 1] == devices[1..][i];
      }
      if AnyNameWhere(devices, p) {
        var i :| 0 <= i < |devices| && devices[i].Some? && p(devices[i].value);
        if i > 0 { assert devices[1..][i - 1] == devices[i]; }
      }
    }
  }

  predicate AnyName(name: string) { true }

  /** `filter_map(|d| d.name().ok())`: every readable name, in enumeration order. */
  function ReadableNames(devices: seq<Option<string>>): (r: seq<string>)
    ensures forall n :: n in r <==> Some(n) in devices
  {
    NamesWhere(devices, AnyName)
  }

  // ---------------------------------------------------------------------------
  // VB-Cable name tests
  // ---------------------------------------------------------------------------

  /** A virtual device: its name mentions "CABLE". */
  predicate IsVirtual(name: string) { Contains(name, "CABLE") }

  predicate IsPhysical(name: string) { !IsVirtual(name) }

  predicate IsCableAInput(name: string) { Contains(name, "CABLE-A Input") }

  predicate IsCableAOutput(name: string) { Contains(name, "CABLE-A Output") }

  /** The plain cable's playback side; a CABLE-A name never qualifies. */
  predicate IsCableInput(name: string) { Contains(name, "CABLE Input") && !Contains(name, "CABLE-A") }

  /** The plain cable's recording side; a CABLE-A name never qualifies. */
  predicate IsCableOutput(name: string) { Contains(name, "CABLE Output") && !Contains(name, "CABLE-A") }
}
