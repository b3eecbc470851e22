/** Extensions of slash-separated paths, as Go's `filepath.Ext` computes them on Unix. */
module Paths {

  /** Some '/' follows position `i` of `p`. */
  ghost predicate SlashAfter(p: string, i: nat) {
    exists j :: i < j < |p| && p[j] == '/'
  }

  /** `e` is the extension of `p`: the suffix that starts at the last '.' of the final
      path element, or "" when the final element has no '.' at all. */
  ghost predicate IsExtensionOf(p: string, e: string) {
    if e == "" then
      forall i :: 0 <= i < |p| && p[i] == '.' ==> SlashAfter(p, i)
    else
      && |e| <= |p| && e == p[|p| - |e|..]
      && e[0] == '.'
      && forall j :: 0 < j < |e| ==> e[j] != '.' && e[j] != '/'
  }

  /** Scans back from the end of `p` to the last '.', stopping at a '/'. */
  function Ext(p: string): (e: string)
    ensures |e| <= |p| && e == p[|p| - |e|..]
    ensures e == "" || e[0] == '.'
    ensures forall j :: 0 <= j < |e| ==> e[j] != '/'
    ensures forall j :: 0 < j < |e| ==> e[j] != '.'
    ensures e == "" ==> forall i :: 0 <= i < |p| && p[i] == '.' ==> SlashAfter(p, i)
  {
    if |p| == 0 || p[|p| - 1] == '/' then
      ""
    else if p[|p| - 1] == '.' then
      "."
    else
      var init := p[..|p| - 1];
      var e := Ext(init);
      if e == "" then
        assert forall i :: 0 <= i < |init| && init[i] == '.' ==> SlashAfter(p, i) by {
          forall i | 0 <= i < |init| && init[i] == '.' ensures SlashAfter(p, i) {
            var j :| i < j < |init| && init[j] == '/';
            assert p[j] == '/';
          }
        }
        ""
      else
        assert p == init + [p[|p| - 1]];
        e + [p[|p| - 1]]
  }

  /** The extension is unique: whatever satisfies the description of an extension is `Ext`. */
  lemma ExtIsUnique(p: string, e: string)
    requires IsExtensionOf(p, e)
    ensures e == Ext(p)
  {
  }

  /** A directory component that contains a dot is never taken for an extension. */
  lemma {:induction false} ExtIgnoresDirectories(dir: string, name: string)
    requires forall j :: 0 <= j < |name| ==> name[j] != '.'
    ensures Ext(dir + "/" + name) == ""
  {
    var p := dir + "/" + name;
    if name != [] {
      var init := name[..|name| - 1];
      ExtIgnoresDirectories(dir, init);
      assert p[..|p| - 1] == dir + "/" + init;
    }
  }
}
