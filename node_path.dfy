/**
 * `path.basename` and `path.extname` of Node's POSIX path module, on
 * `string`: trailing separators are ignored, the extension is the part of
 * the last component from its last `'.'`, and a leading dot (".profile")
 * or the component ".." has no extension.
 */
module NodePath {
  import opened Wrappers
  import opened JsText

  /** The index of the last `c` in `s`. */
  function LastIndexOfChar(s: string, c: char): (r: Option<nat>)
    ensures r.Some? ==> r.value < |s| && s[r.value] == c && c !in s[r.value + 1..]
    ensures r.None? <==> c !in s
  {
    if |s| == 0 then None
    else if s[|s| - 1] == c then Some(|s| - 1)
    else
      var r := LastIndexOfChar(s[..|s| - 1], c);
      assert s == s[..|s| - 1] + [s[|s| - 1]];
      if r.Some? then
        assert s[r.value + 1..] == s[..|s| - 1][r.value + 1..] + [s[|s| - 1]];
        r
      else r
  }

  /** `p` without its trailing separators: a prefix that does not end in
    * `'/'`, and only `'/'` characters were dropped. */
  function TrimTrailingSlashes(p: string): (r: string)
    ensures r <= p && (|r| > 0 ==> r[|r| - 1] != '/')
    ensures forall i :: |r| <= i < |p| ==> p[i] == '/'
  {
    if |p| > 0 && p[|p| - 1] == '/' then TrimTrailingSlashes(p[..|p| - 1]) else p
  }

  /** `r` is the text of `t` after its `k`-th character, which is `'/'`,
    * or all of `t` when `k == 0`. */
  predicate SuffixAfterSlash(r: string, t: string, k: int) {
    0 <= k <= |t| && r == t[k..] && (k == 0 || t[k - 1] == '/')
  }

  /** `path.basename(p)`: the last component, without separators. */
  function Basename(p: string): (r: string)
    ensures '/' !in r
  {
    var t := TrimTrailingSlashes(p);
    match LastIndexOfChar(t, '/')
    case None => t
    case Some(i) => t[i + 1..]
  }

  /** Once the trailing separators are dropped, the base name is the text
    * after the last `'/'`, or all of it when there is none. */
  lemma BasenameIsLastComponent(p: string)
    ensures exists k :: SuffixAfterSlash(Basename(p), TrimTrailingSlashes(p), k)
    ensures '/' !in TrimTrailingSlashes(p) ==> Basename(p) == TrimTrailingSlashes(p)
  {
    var t := TrimTrailingSlashes(p);
    match LastIndexOfChar(t, '/')
    case None =>
      assert Basename(p) == t;
      assert SuffixAfterSlash(t, t, 0);
    case Some(i) =>
      assert Basename(p) == t[i + 1..];
      assert SuffixAfterSlash(t[i + 1..], t, i + 1);
  }

  /** `path.extname(p)`. */
  function Extname(p: string): string {
    var b := Basename(p);
    match LastIndexOfChar(b, '.')
    case None => ""
    case Some(i) => if i == 0 || b == ".." then "" else b[i..]
  }

  /** An extension is empty or a `'.'` followed by no other `'.'`, and it is
    * a proper suffix of the last component. */
  lemma ExtnameShape(p: string)
    ensures var e := Extname(p); var b := Basename(p);
      e == [] || (e[0] == '.' && '.' !in e[1..] && |e| < |b| && b[|b| - |e|..] == e)
  {
    var b := Basename(p);
    match LastIndexOfChar(b, '.')
    case None =>
    case Some(i) =>
      if i != 0 && b != ".." {
        assert b[i..][1..] == b[i + 1..];
      }
  }

  /** `LowerChar` maps only letters, so it never produces or removes a dot. */
  lemma LowerCharDot(c: char)
    ensures LowerChar(c) == '.' <==> c == '.'
  {
  }

  /** The lower-cased extension is a given `".xyz"` (three non-dots) exactly
    * when the last component is longer than four characters and its last
    * four lower-case to it. */
  lemma ExtensionOfLength4(p: string, ext: string)
    requires |ext| == 4 && ext[0] == '.' && '.' !in ext[1..]
    ensures var b := Basename(p);
      ToLower(Extname(p)) == ext <==> |b| > 4 && ToLower(b[|b| - 4..]) == ext
  {
    var b := Basename(p);
    var e := Extname(p);
    ExtnameShape(p);
    if ToLower(e) == ext {
      assert |e| == 4;
      assert b[|b| - 4..] == e;
    }
    if |b| > 4 && ToLower(b[|b| - 4..]) == ext {
      var i := |b| - 4;
      var tail := b[i..];
      assert ToLower(tail)[0] == '.';
      LowerCharDot(b[i]);
      assert b[i] == '.';
      forall k | i + 1 <= k < |b|
        ensures b[k] != '.'
      {
        assert ToLower(tail)[k - i] == ext[k - i];
        assert ext[k - i] in ext[1..];
        LowerCharDot(b[k]);
      }
      var r := LastIndexOfChar(b, '.');
      assert r.Some?;
      assert r.value == i;
      assert b != "..";
      assert e == tail;
    }
  }
}
