/** Splitting a credential file name into the identity token and the key type. */
module TokenNames {
  import opened Wrappers

  /** The two halves of a credential file name: `alice.public` is `alice` and `.public`. */
  datatype Split = Split(identity: string, keyType: string)

  /** Position of the last occurrence of `c` in `s` (`std::string::find_last_of` with a
      one-character set); None stands for `npos`. */
  function LastIndexOf(s: string, c: char): (r: Option<nat>)
    ensures r.None? <==> c !in s
    ensures r.Some? ==> r.value < |s| && s[r.value] == c && c !in s[r.value + 1..]
  {
    if |s| == 0 then None
    else if s[|s| - 1] == c then Some(|s| - 1)
    else
      var r := LastIndexOf(s[..|s| - 1], c);
      assert s == s[..|s| - 1] + [s[|s| - 1]];
      r
  }

  /** The identity is everything before the last `.`, the type everything from it on.
      A name without a `.` makes `substr(npos)` throw, so it has no split. */
  function SplitName(filename: string): (r: Option<Split>)
    ensures r.None? <==> '.' !in filename
    ensures r.Some? ==> r.value.identity + r.value.keyType == filename
    ensures r.Some? ==> |r.value.keyType| > 0 && r.value.keyType[0] == '.'
    ensures r.Some? ==> '.' !in r.value.keyType[1..]
  {
    match LastIndexOf(filename, '.')
    case None => None
    case Some(dot) =>
      assert filename[dot..][1..] == filename[dot + 1..];
      Some(Split(filename[..dot], filename[dot..]))
  }

  /** The split is the only way to cut a name into a prefix and a suffix that starts
      with the name's last `.`: the ensures of SplitName determine it. */
  lemma SplitNameUnique(filename: string, identity: string, keyType: string)
    requires identity + keyType == filename
    requires |keyType| > 0 && keyType[0] == '.' && '.' !in keyType[1..]
    ensures SplitName(filename) == Some(Split(identity, keyType))
  {
    assert filename[|identity|] == '.';
    var dot := LastIndexOf(filename, '.').value;
    assert filename[..dot] == identity;
    assert filename[dot..] == keyType;
  }

  /** A name with several dots keeps all but the last in its identity. */
  lemma SplitNameKeepsInnerDots()
    ensures SplitName("a.b.public") == Some(Split("a.b", ".public"))
  {
    SplitNameUnique("a.b.public", "a.b", ".public");
  }
}
