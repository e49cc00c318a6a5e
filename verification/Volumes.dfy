/** Volumes of a compose file: what the validators accept (compose/validator.go) and where the patcher
    moves them (compose/recompose.go). A volume is `source:destination` or `source:destination:mode`. */
module Volumes {
  import opened Wrappers

  // ----- Strings

  /** strings.Split with a separator of one character. */
  function Split(s: string, sep: char): (r: seq<string>)
    ensures |r| > 0
  {
    if s == "" then [""] else Extend(s[0], Split(s[1..], sep), sep)
  }

  /** One more character in front of a list of slugs. */
  function Extend(c: char, parts: seq<string>, sep: char): seq<string>
    requires |parts| > 0
  {
    if c == sep then [""] + parts else [[c] + parts[0]] + parts[1..]
  }

  predicate HasPrefix(s: string, prefix: string) {
    prefix <= s
  }

  lemma {:induction false} SplitWithout(s: string, sep: char)
    requires sep !in s
    ensures Split(s, sep) == [s]
  {
    if s != "" {
      SplitWithout(s[1..], sep);
      assert [s[0]] + s[1..] == s;
    }
  }

  lemma {:induction false} SlugsWithout(s: string, sep: char)
    ensures forall i :: 0 <= i < |Split(s, sep)| ==> sep !in Split(s, sep)[i]
  {
    if s != "" {
      SlugsWithout(s[1..], sep);
    }
  }

  lemma ExtendAppend(c: char, a: seq<string>, b: seq<string>, sep: char)
    requires |a| > 0
    ensures Extend(c, a + b, sep) == Extend(c, a, sep) + b
  {
    assert (a + b)[1..] == a[1..] + b;
  }

  lemma {:induction false} SplitAppend(a: string, b: string, sep: char)
    ensures Split(a + [sep] + b, sep) == Split(a, sep) + Split(b, sep)
  {
    var whole := a + [sep] + b;
    if a == "" {
      assert whole[1..] == b;
      assert Split(whole, sep) == Extend(sep, Split(b, sep), sep);
    } else {
      var tail := a[1..] + [sep] + b;
      SplitAppend(a[1..], b, sep);
      assert whole[0] == a[0] && whole[1..] == tail;
      assert Split(whole, sep) == Extend(a[0], Split(tail, sep), sep);
      assert Split(a, sep) == Extend(a[0], Split(a[1..], sep), sep);
      ExtendAppend(a[0], Split(a[1..], sep), Split(b, sep), sep);
    }
  }

  lemma SplitTwo(a: string, b: string, sep: char)
    requires sep !in a && sep !in b
    ensures Split(a + [sep] + b, sep) == [a, b]
  {
    SplitAppend(a, b, sep);
    SplitWithout(a, sep);
    SplitWithout(b, sep);
  }

  // ----- Validation

  datatype Objection = NotRelative | DotDot | TooDeep

  const DEEP := 8

  function ValidateVolumeInplace(source: string): Option<Objection> {
    if HasPrefix(source, "./") then None else Some(NotRelative)
  }

  method ValidateNoDotDot(source: string) returns (r: Option<Objection>)
    ensures r == if NoDotDot(source) then None else Some(DotDot)
  {
    var slugs := Split(source, '/');
    for i := 0 to |slugs|
      invariant forall j :: 0 <= j < i ==> !HasPrefix(slugs[j], "..")
    {
      if HasPrefix(slugs[i], "..") {
        return Some(DotDot);
      }
    }
    return None;
  }

  predicate NoDotDot(source: string) {
    forall slug :: slug in Split(source, '/') ==> !HasPrefix(slug, "..")
  }

  function ValidateNotAsDeep(deep: int, source: string): Option<Objection> {
    if |Split(source, '/')| > deep then Some(TooDeep) else None
  }

  /** Some slug starts with two dots. */
  ghost predicate HasDotDot(source: string) {
    exists i :: 0 <= i < |Split(source, '/')| && ".." <= Split(source, '/')[i]
  }

  lemma DotDotIs(source: string)
    ensures NoDotDot(source) <==> !HasDotDot(source)
  {
    var slugs := Split(source, '/');
    if !NoDotDot(source) {
      var slug :| slug in slugs && HasPrefix(slug, "..");
      var i :| 0 <= i < |slugs| && slugs[i] == slug;
      assert ".." <= Split(source, '/')[i];
    } else {
      forall i | 0 <= i < |slugs| ensures !(".." <= slugs[i]) {
        assert slugs[i] in slugs && !HasPrefix(slugs[i], "..");
      }
    }
  }

  /** A well-formed volume that no standard validator objects to. */
  predicate Accepted(volume: string) {
    var slugs := Split(volume, ':');
    && 2 <= |slugs| <= 3
    && ValidateVolumeInplace(slugs[0]).None? && NoDotDot(slugs[0]) && ValidateNotAsDeep(DEEP, slugs[0]).None?
  }

  datatype Malformed = Malformed

  /** The validation of one volume: an error for a wrong format, else the list of objections. */
  method ValidateVolume(volume: string) returns (r: Result<seq<Objection>, Malformed>)
    ensures r == Ok([]) <==> Accepted(volume)
    ensures r.Ok? ==>
              var source := Split(volume, ':')[0];
              && (NotRelative in r.value <==> !("./" <= source))
              && (DotDot in r.value <==> HasDotDot(source))
              && (TooDeep in r.value <==> |Split(source, '/')| > 8)
    ensures r.Err? <==> |Split(volume, ':')| == 1 || |Split(volume, ':')| > 3
  {
    var slugs := Split(volume, ':');
    if |slugs| == 1 || |slugs| > 3 {
      return Err(Malformed);
    }
    DotDotIs(slugs[0]);
    var dots := ValidateNoDotDot(slugs[0]);
    var verdicts := [ValidateVolumeInplace(slugs[0]), dots, ValidateNotAsDeep(DEEP, slugs[0])];
    var errors := [];
    for i := 0 to |verdicts|
      invariant errors == [] <==> forall j :: 0 <= j < i ==> verdicts[j].None?
      invariant forall e :: e in errors <==> Some(e) in verdicts[..i]
    {
      if verdicts[i].Some? {
        errors := errors + [verdicts[i].value];
      }
    }
    assert (forall j :: 0 <= j < 3 ==> verdicts[j].None?)
           <==> (verdicts[0].None? && verdicts[1].None? && verdicts[2].None?);
    assert verdicts[..3] == verdicts;
    r := Ok(errors);
  }

  // ----- The patcher

  /** Panic: the destination is missing. */
  datatype PatchError = TargetNotRelative | WrongPrefix | Panic

  function PatchVolume(target: string, volume: string): Result<string, PatchError> {
    if !HasPrefix(target, "./") then Err(TargetNotRelative)
    else
      var slugs := Split(volume, ':');
      var src := slugs[0];
      if !HasPrefix(src, "./") then Err(WrongPrefix)
      else
        var ro := if |slugs| == 3 then ":" + slugs[2] else "";
        if !HasPrefix(src, target + "/") then
          if |slugs| == 1 then Err(Panic) else Ok(target + "/" + src[2..] + ":" + slugs[1] + ro)
        else Ok(src)
  }

  /** The exact reason for each refusal of the patcher; it runs out of range when there is nothing to keep. */
  lemma PatchFails(target: string, volume: string)
    ensures PatchVolume(target, volume) == Err(TargetNotRelative) <==> !("./" <= target)
    ensures PatchVolume(target, volume) == Err(WrongPrefix) <==>
              "./" <= target && !("./" <= Split(volume, ':')[0])
    ensures PatchVolume(target, volume) == Err(Panic) <==>
              && "./" <= target && "./" <= Split(volume, ':')[0]
              && |Split(volume, ':')| == 1 && !(target + "/" <= Split(volume, ':')[0])
  {
  }

  /** The source of the patched volume. */
  function PatchedSource(target: string, src: string): string
    requires HasPrefix(src, "./")
  {
    if HasPrefix(src, target + "/") then src else target + "/" + src[2..]
  }

  /** The slugs of a patched volume. An accepted volume is never refused; its source becomes the patched one,
      and it keeps its destination and mode if and only if its source is not under the target yet. */
  lemma PatchedSlugs(target: string, volume: string)
    requires HasPrefix(target, "./") && Accepted(volume)
    ensures var slugs, r := Split(volume, ':'), PatchVolume(target, volume);
            && r.Ok?
            && Split(r.value, ':') == Split(PatchedSource(target, slugs[0]), ':')
                                      + (if HasPrefix(slugs[0], target + "/") then [] else slugs[1..])
  {
    var slugs := Split(volume, ':');
    var src, dest := slugs[0], slugs[1];
    SlugsWithout(volume, ':');
    if !HasPrefix(src, target + "/") {
      var moved := target + "/" + src[2..];
      SplitWithout(dest, ':');
      SplitAppend(moved, dest, ':');
      if |slugs| == 3 {
        SplitWithout(slugs[2], ':');
        SplitAppend(moved + ":" + dest, slugs[2], ':');
        assert moved + ":" + dest + ":" + slugs[2] == moved + ":" + dest + (":" + slugs[2]);
        assert slugs[1..] == [dest, slugs[2]];
      } else {
        assert moved + ":" + dest + "" == moved + ":" + dest;
        assert slugs[1..] == [dest];
      }
    }
  }

  /** The source that is left is the patched one, or, with a colon in the target, the part of the target before
      it, whatever the volume. */
  lemma SourceLeft(target: string, volume: string)
    requires HasPrefix(target, "./") && Accepted(volume)
    ensures PatchVolume(target, volume).Ok?
    ensures var src := Split(volume, ':')[0];
            Split(PatchVolume(target, volume).value, ':')[0]
            == if ':' in target then Split(target, ':')[0] else PatchedSource(target, src)
  {
    PatchedSlugs(target, volume);
    SlugsWithout(volume, ':');
    var src := Split(volume, ':')[0];
    if ':' in target {
      CutAtColon(target, src);
    } else {
      SplitWithout(PatchedSource(target, src), ':');
    }
  }

  /** A source is moved by putting the target in place of its dot, unless it is under the target. */
  lemma SourceMoves(target: string, src: string)
    requires "./" <= src
    ensures PatchedSource(target, src) == if target + "/" <= src then src else target + src[1..]
  {
    assert src == "./" + src[2..] && src[1..] == "/" + src[2..];
    assert target + src[1..] == target + "/" + src[2..];
  }

  lemma CutAtColon(target: string, src: string)
    requires HasPrefix(src, "./") && ':' in target && ':' !in src
    ensures Split(PatchedSource(target, src), ':')[0] == Split(target, ':')[0]
  {
    NoPrefix(src, target + "/", ':');
    FirstSlug(target, "/" + src[2..], ':');
    assert target + ("/" + src[2..]) == target + "/" + src[2..];
  }

  lemma NoPrefix(s: string, prefix: string, c: char)
    requires c in prefix && c !in s
    ensures !HasPrefix(s, prefix)
  {
    if HasPrefix(s, prefix) {
      PrefixMember(s, prefix, c);
      assert false;
    }
  }

  lemma PrefixMember(s: string, prefix: string, c: char)
    requires HasPrefix(s, prefix) && c in prefix
    ensures c in s
  {
    var i :| 0 <= i < |prefix| && prefix[i] == c;
    assert s[i] == c;
  }

  /** What comes after the first separator does not change the first slug. */
  lemma {:induction false} FirstSlug(a: string, b: string, sep: char)
    requires sep in a
    ensures Split(a + b, sep)[0] == Split(a, sep)[0]
  {
    assert (a + b)[0] == a[0] && (a + b)[1..] == a[1..] + b;
    if a[0] != sep {
      FirstSlug(a[1..], b, sep);
    }
  }

  /** The source after the root, in slugs: the target's, then the source's own ones. */
  lemma PatchedPath(target: string, src: string) returns (rest: string)
    requires HasPrefix(src, "./")
    ensures PatchedSource(target, src) == target + "/" + rest
    ensures Split(PatchedSource(target, src), '/') == Split(target, '/') + Split(rest, '/')
    ensures forall slug :: slug in Split(rest, '/') ==> slug in Split(src, '/')
  {
    if HasPrefix(src, target + "/") {
      rest := src[|target| + 1..];
      assert src == target + "/" + rest;
      SplitAppend(target, rest, '/');
    } else {
      rest := src[2..];
      SplitAppend(target, rest, '/');
      SplitAppend(".", rest, '/');
      assert src == "." + "/" + rest;
    }
  }

  // ----- Where a path leads

  /** Follows the slugs of a relative path from the directory `at`: empty slugs and dots stay, two dots go up. */
  function Follow(at: seq<string>, slugs: seq<string>): seq<string>
    decreases |slugs|
  {
    if slugs == [] then at
    else
      var slug := slugs[0];
      var next :=
        if slug == "" || slug == "." then at
        else if slug == ".." && at != [] && at[|at| - 1] != ".." then at[..|at| - 1]
        else at + [slug];
      Follow(next, slugs[1..])
  }

  function Normalised(path: string): seq<string> {
    Follow([], Split(path, '/'))
  }

  /** `path` leads to `target` or below it. */
  ghost predicate Under(target: string, path: string) {
    exists below: seq<string> :: ".." !in below && Normalised(path) == Normalised(target) + below
  }

  lemma {:induction false} FollowAppend(at: seq<string>, a: seq<string>, b: seq<string>)
    ensures Follow(at, a + b) == Follow(Follow(at, a), b)
    decreases |a|
  {
    if a == [] {
      assert a + b == b;
    } else {
      assert (a + b)[1..] == a[1..] + b;
      var slug := a[0];
      var next :=
        if slug == "" || slug == "." then at
        else if slug == ".." && at != [] && at[|at| - 1] != ".." then at[..|at| - 1]
        else at + [slug];
      FollowAppend(next, a[1..], b);
    }
  }

  /** Without two dots a path only goes down. */
  lemma {:induction false} FollowDown(at: seq<string>, slugs: seq<string>) returns (below: seq<string>)
    requires ".." !in slugs
    ensures Follow(at, slugs) == at + below && ".." !in below
    decreases |slugs|
  {
    if slugs == [] {
      below := [];
    } else if slugs[0] == "" || slugs[0] == "." {
      below := FollowDown(at, slugs[1..]);
    } else {
      below := FollowDown(at + [slugs[0]], slugs[1..]);
      below := [slugs[0]] + below;
    }
  }

  /** The source that is left of an accepted volume stays under the target if and only if the target has no
      colon or its part before the colon leads there itself. */
  lemma StaysUnderTarget(target: string, volume: string)
    requires HasPrefix(target, "./") && Accepted(volume)
    ensures PatchVolume(target, volume).Ok?
    ensures Under(target, Split(PatchVolume(target, volume).value, ':')[0])
            <==> ':' !in target || Under(target, Split(target, ':')[0])
  {
    SourceLeft(target, volume);
    if ':' !in target {
      PatchedUnder(target, volume);
    }
  }

  lemma PatchedUnder(target: string, volume: string)
    requires Accepted(volume)
    ensures Under(target, PatchedSource(target, Split(volume, ':')[0]))
  {
    var rest := PatchedPath(target, Split(volume, ':')[0]);
    var down := Split(rest, '/');
    assert HasPrefix("..", "..");
    FollowAppend([], Split(target, '/'), down);
    var below := FollowDown(Normalised(target), down);
  }

  /** With a directory as the target, as the standard ./volumes is, no accepted volume leaves it. */
  lemma StaysUnderDirectory(name: string, volume: string)
    requires '/' !in name && ':' !in name && name !in ["", ".", ".."] && Accepted(volume)
    ensures PatchVolume("./" + name, volume).Ok?
    ensures [name] <= Normalised(Split(PatchVolume("./" + name, volume).value, ':')[0])
  {
    var target := "./" + name;
    StaysUnderTarget(target, volume);
    PathBelowRoot(name);
  }

  /** A name below the root is one directory. */
  lemma PathBelowRoot(name: string)
    requires '/' !in name && name !in ["", ".", ".."]
    ensures Split("./" + name, '/') == [".", name]
    ensures Normalised("./" + name) == [name]
  {
    SplitTwo(".", name, '/');
    assert "./" + name == "." + "/" + name;
    assert Follow([], [".", name]) == Follow([], [name]) == Follow([name], []);
  }

  /** Two sources collide exactly when they are equal, or one is already what the other one is moved to. */
  lemma PatchedSourcesCollide(target: string, a: string, b: string)
    requires HasPrefix(a, "./") && HasPrefix(b, "./")
    ensures PatchedSource(target, a) == PatchedSource(target, b)
            <==> a == b || (!HasPrefix(a, target + "/") && b == target + a[1..])
                 || (!HasPrefix(b, target + "/") && a == target + b[1..])
  {
    assert a == "./" + a[2..] && b == "./" + b[2..];
    assert a[1..] == "/" + a[2..] && b[1..] == "/" + b[2..];
    assert target + a[1..] == target + "/" + a[2..] && target + b[1..] == target + "/" + b[2..];
    var root := target + "/";
    assert (root + a[2..])[|root|..] == a[2..] && (root + b[2..])[|root|..] == b[2..];
    assert HasPrefix(root + a[2..], root) && HasPrefix(root + b[2..], root);
  }

  /** Patching twice is patching once and then losing destination and mode, unless the target has a colon. */
  lemma PatchedTwice(target: string, volume: string)
    requires HasPrefix(target, "./") && Accepted(volume)
    ensures PatchVolume(target, volume).Ok?
    ensures var r := PatchVolume(target, volume).value;
            PatchVolume(target, r) == Ok(Split(r, ':')[0]) <==> ':' !in target
  {
    SourceLeft(target, volume);
    var r := PatchVolume(target, volume).value;
    var left := Split(r, ':')[0];
    var rest := PatchedPath(target, Split(volume, ':')[0]);
    assert HasPrefix(target + "/" + rest, target + "/") && HasPrefix(target + "/" + rest, "./");
    if ':' in target {
      SlugsWithout(r, ':');
      NoPrefix(left, target, ':');
      NoPrefix(left, target + "/", ':');
    }
  }

  /** A colon in the target cuts the source short, outside of the target. */
  lemma ColonInTarget()
    ensures Accepted("./c:/d")
    ensures PatchVolume("./a:b", "./c:/d") == Ok("./a:b/c:/d")
    ensures Split("./a:b/c:/d", ':')[0] == "./a" && !Under("./a:b", "./a")
  {
    ColonVolume();
    ColonPatched();
    SplitAppend("./a", "b/c:/d", ':');
    SplitWithout("./a", ':');
    assert "./a" + ":" + "b/c:/d" == "./a:b/c:/d";
    ColonLeads();
  }

  lemma ColonVolume()
    ensures Split("./c:/d", ':') == ["./c", "/d"] && Accepted("./c:/d")
  {
    SplitTwo("./c", "/d", ':');
    assert "./c" + ":" + "/d" == "./c:/d";
    PathBelowRoot("c");
    assert "./" + "c" == "./c";
  }

  lemma ColonPatched()
    requires Split("./c:/d", ':') == ["./c", "/d"]
    ensures PatchVolume("./a:b", "./c:/d") == Ok("./a:b/c:/d")
  {
    assert "./c"[2..] == "c" && "./a:b" + "/" == "./a:b/";
    assert !HasPrefix("./c", "./a:b/");
    assert "./a:b/" + "c" + ":" + "/d" + "" == "./a:b/c:/d";
  }

  lemma ColonLeads()
    ensures !Under("./a:b", "./a")
  {
    var long, short := "a:b", "a";
    PathBelowRoot(long);
    PathBelowRoot(short);
    assert "./" + long == "./a:b" && "./" + short == "./a";
  }
}
