/**
 * Path and matrix helpers. A path is a `string` standing for the bytes of a
 * `std::string`: each character is one byte, compared as `find_last_of` does.
 */
module Util {
  import opened Wrappers

  // ---------------------------------------------------------------------------
  // get_directory

  /** Either path separator `find_last_of("\\/")` looks for. */
  predicate IsSeparator(c: char) {
    c == '\\' || c == '/'
  }

  /** `find_last_of("\\/")`: the index of the last separator, or none (`npos`). */
  function LastSeparator(s: string): (r: Option<nat>)
    ensures r.None? ==> forall k :: 0 <= k < |s| ==> !IsSeparator(s[k])
    ensures r.Some? ==> r.value < |s| && IsSeparator(s[r.value])
    ensures r.Some? ==> forall k :: r.value < k < |s| ==> !IsSeparator(s[k])
  {
    if s == [] then None
    else if IsSeparator(s[|s| - 1]) then Some(|s| - 1)
    else LastSeparator(s[..|s| - 1])
  }

  /**
   * `get_directory`: everything before the last separator, or the empty string
   * when the name holds no separator.
   */
  function GetDirectory(fname: string): (dir: string)
    ensures (forall k :: 0 <= k < |fname| ==> !IsSeparator(fname[k])) ==> dir == ""
    ensures (exists k :: 0 <= k < |fname| && IsSeparator(fname[k])) ==>
      && |dir| < |fname|
      && dir == fname[..|dir|]
      && IsSeparator(fname[|dir|])
      && (forall k :: |dir| < k < |fname| ==> !IsSeparator(fname[k]))
  {
    match LastSeparator(fname)
    case None => ""
    case Some(pos) => fname[..pos]
  }

  /** Joining a directory and a separator-free file name with '/' and taking the directory back gives the directory. */
  lemma DirectoryOfJoin(dir: string, file: string)
    requires forall k :: 0 <= k < |file| ==> !IsSeparator(file[k])
    ensures GetDirectory(dir + "/" + file) == dir
  {
    var path := dir + "/" + file;
    assert IsSeparator(path[|dir|]);
    assert forall k :: |dir| < k < |path| ==> path[k] == file[k - |dir| - 1];
  }

  // ---------------------------------------------------------------------------
  // identity_matrix

  /** A 4x4 matrix as four columns of four entries; entry (i, j) is `m[i][j]`. */
  type Matrix4 = seq<seq<real>>

  predicate IsMatrix4(m: Matrix4) {
    |m| == 4 && forall i :: 0 <= i < 4 ==> |m[i]| == 4
  }

  /** `identity_matrix`: fills every entry, 1 on the diagonal and 0 elsewhere. */
  method IdentityMatrix() returns (m: Matrix4)
    ensures IsMatrix4(m)
    ensures forall i, j :: 0 <= i < 4 && 0 <= j < 4 ==> m[i][j] == if i == j then 1.0 else 0.0
    ensures forall i, j :: 0 <= i < 4 && 0 <= j < 4 ==> m[i][j] == m[j][i]
  {
    m := seq(4, _ => seq(4, _ => 0.0));
    for i := 0 to 4
      invariant IsMatrix4(m)
      invariant forall i', j :: 0 <= i' < i && 0 <= j < 4 ==> m[i'][j] == if i' == j then 1.0 else 0.0
    {
      for j := 0 to 4
        invariant IsMatrix4(m)
        invariant forall i', j' :: 0 <= i' < i && 0 <= j' < 4 ==> m[i'][j'] == if i' == j' then 1.0 else 0.0
        invariant forall j' :: 0 <= j' < j ==> m[i][j'] == if i == j' then 1.0 else 0.0
      {
        m := m[i := m[i][j := if i == j then 1.0 else 0.0]];
      }
    }
  }
}
