/** `String.prototype.trim`, as the add form applies it to the title. */
module Text {

  /** The characters `trim` strips: the ECMAScript WhiteSpace code points
      (tab, vertical tab, form feed, no-break space, byte order mark and the
      Unicode space separators) and the LineTerminator code points. */
  predicate IsTrimmable(c: char) {
    c == '\t' || c == '\n' || c == '\U{000B}' || c == '\U{000C}' || c == '\r'
    || c == ' ' || c == '\U{00A0}' || c == '\U{1680}'
    || ('\U{2000}' <= c <= '\U{200A}')
    || c == '\U{2028}' || c == '\U{2029}' || c == '\U{202F}' || c == '\U{205F}'
    || c == '\U{3000}' || c == '\U{FEFF}'
  }

  predicate AllTrimmable(s: string) {
    forall k :: 0 <= k < |s| ==> IsTrimmable(s[k])
  }

  /** `r` is the piece of `s` that starts at index `i`, is flanked in `s` only
      by trimmable characters, and neither starts nor ends with one. */
  predicate TrimmedAt(r: string, s: string, i: int) {
    && 0 <= i <= |s| - |r|
    && (forall k :: 0 <= k < |r| ==> r[k] == s[i + k])
    && (forall k :: 0 <= k < i ==> IsTrimmable(s[k]))
    && (forall k :: i + |r| <= k < |s| ==> IsTrimmable(s[k]))
    && (r == [] || (!IsTrimmable(r[0]) && !IsTrimmable(r[|r| - 1])))
  }

  /** `r` is what is left of `s` once the runs of trimmable characters at both
      ends are cut off. */
  ghost predicate IsTrimOf(r: string, s: string) {
    exists i :: TrimmedAt(r, s, i)
  }

  /** The number of trimmable characters `s` starts with. */
  function LeadingRun(s: string): (n: nat)
    ensures n <= |s|
    ensures forall k :: 0 <= k < n ==> IsTrimmable(s[k])
    ensures n < |s| ==> !IsTrimmable(s[n])
  {
    if s != [] && IsTrimmable(s[0]) then 1 + LeadingRun(s[1..]) else 0
  }

  /** The number of trimmable characters `s` ends with. */
  function TrailingRun(s: string): (n: nat)
    ensures n <= |s|
    ensures forall k :: |s| - n <= k < |s| ==> IsTrimmable(s[k])
    ensures n < |s| ==> !IsTrimmable(s[|s| - 1 - n])
  {
    if s != [] && IsTrimmable(s[|s| - 1]) then 1 + TrailingRun(s[..|s| - 1]) else 0
  }

  /** Drops the leading trimmable characters: what is left is the end of `s`
      from its first non-trimmable character on. */
  function TrimStart(s: string): (r: string)
    ensures |r| <= |s|
    ensures forall k :: 0 <= k < |r| ==> r[k] == s[|s| - |r| + k]
    ensures forall k :: 0 <= k < |s| - |r| ==> IsTrimmable(s[k])
    ensures r == [] || !IsTrimmable(r[0])
  {
    s[LeadingRun(s)..]
  }

  /** Drops the trailing trimmable characters: what is left is the start of
      `s` up to its last non-trimmable character. */
  function TrimEnd(s: string): (r: string)
    ensures |r| <= |s|
    ensures forall k :: 0 <= k < |r| ==> r[k] == s[k]
    ensures forall k :: |r| <= k < |s| ==> IsTrimmable(s[k])
    ensures r == [] || !IsTrimmable(r[|r| - 1])
  {
    s[..|s| - TrailingRun(s)]
  }

  /** `s.trim()`: the trailing run cut from what is left once the leading
      run is cut. What this means is stated by `TrimIsTrimOf` below. */
  function Trim(s: string): (r: string)
    ensures |r| <= |s|
  {
    TrimEnd(TrimStart(s))
  }

  /** `Trim(s)` is the piece of `s` between its leading and trailing runs of
      trimmable characters, and it is empty exactly when `s` holds nothing
      but trimmable characters, which is when `!title.trim()` rejects a
      title. */
  lemma TrimIsTrimOf(s: string)
    ensures IsTrimOf(Trim(s), s)
    ensures Trim(s) == [] <==> AllTrimmable(s)
  {
    var t := TrimStart(s);
    var r := TrimEnd(t);
    var i := |s| - |t|;
    forall k | i + |r| <= k < |s| ensures IsTrimmable(s[k]) {
      assert s[k] == t[k - i];
    }
    assert r != [] ==> r[0] == t[0];
    assert TrimmedAt(r, s, i);
  }

  /** A non-empty trimmed piece starts where the leading run ends ... */
  lemma TrimmedAtStart(r: string, s: string, i: int)
    requires TrimmedAt(r, s, i) && r != []
    ensures i == LeadingRun(s)
  {
    assert s[i] == r[0];
  }

  /** ... and ends where the trailing run begins. */
  lemma TrimmedAtEnd(r: string, s: string, i: int)
    requires TrimmedAt(r, s, i) && r != []
    ensures i + |r| == |s| - TrailingRun(s)
  {
    assert s[i + |r| - 1] == r[|r| - 1];
  }

  /** A piece that is empty leaves only trimmable characters; a non-empty one
      does not. */
  lemma TrimmedAtEmpty(r: string, s: string, i: int)
    requires TrimmedAt(r, s, i)
    ensures r == [] <==> AllTrimmable(s)
  {
    if r != [] {
      assert s[i] == r[0];
    }
  }

  /** Two trimmed pieces of the same string are the same. */
  lemma TrimmedAtSame(r: string, t: string, s: string, i: int, j: int)
    requires TrimmedAt(r, s, i) && TrimmedAt(t, s, j)
    ensures r == t
  {
    TrimmedAtEmpty(r, s, i);
    TrimmedAtEmpty(t, s, j);
    if r != [] {
      TrimmedAtStart(r, s, i);
      TrimmedAtEnd(r, s, i);
      TrimmedAtStart(t, s, j);
      TrimmedAtEnd(t, s, j);
      assert forall k :: 0 <= k < |r| ==> r[k] == t[k];
    }
  }

  /** The trim of a string is unique: any `r` meeting `IsTrimOf(r, s)` is
      `Trim(s)`, so `IsTrimOf` is an independent definition of `trim`. */
  lemma TrimUnique(r: string, s: string)
    requires IsTrimOf(r, s)
    ensures r == Trim(s)
  {
    var i :| TrimmedAt(r, s, i);
    var t := Trim(s);
    TrimIsTrimOf(s);
    var j :| TrimmedAt(t, s, j);
    TrimmedAtSame(r, t, s, i, j);
  }

  /** A title that neither starts nor ends with a trimmable character is
      stored as typed. */
  lemma TrimUnpadded(s: string)
    requires s == [] || (!IsTrimmable(s[0]) && !IsTrimmable(s[|s| - 1]))
    ensures Trim(s) == s
  {
    assert TrimmedAt(s, s, 0);
    TrimUnique(s, s);
  }

  /** Trimming twice is trimming once. */
  lemma TrimIdempotent(s: string)
    ensures Trim(Trim(s)) == Trim(s)
  {
    TrimIsTrimOf(s);
    TrimUnpadded(Trim(s));
  }
}
