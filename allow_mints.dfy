/**
 * `ALLOW_MINTS`: an optional comma-separated list of mint addresses that
 * restricts which token accounts the scan reports.
 */
module AllowMints {
  import opened Wrappers

  /** The white space and line terminators that `String.prototype.trim` removes. */
  predicate IsTrimmable(c: char) {
    || c == '\t' || c == '\n' || c == '\U{000B}' || c == '\U{000C}' || c == '\r' || c == ' '
    || c == '\U{00A0}' || c == '\U{1680}' || ('\U{2000}' <= c <= '\U{200A}')
    || c == '\U{2028}' || c == '\U{2029}' || c == '\U{202F}' || c == '\U{205F}'
    || c == '\U{3000}' || c == '\U{FEFF}'
  }

  /** `s` with its leading white space removed. */
  function TrimStart(s: string): (r: string)
    ensures |r| <= |s| && r == s[|s| - |r|..]
    ensures r == [] || !IsTrimmable(r[0])
    ensures forall k :: 0 <= k < |s| - |r| ==> IsTrimmable(s[k])
  {
    if s != [] && IsTrimmable(s[0]) then TrimStart(s[1..]) else s
  }

  /** `s` with its trailing white space removed. */
  function TrimEnd(s: string): (r: string)
    ensures |r| <= |s| && r == s[..|r|]
    ensures r == [] || !IsTrimmable(r[|r| - 1])
    ensures forall k :: |r| <= k < |s| ==> IsTrimmable(s[k])
  {
    if s != [] && IsTrimmable(s[|s| - 1]) then TrimEnd(s[..|s| - 1]) else s
  }

  /** `s.trim()`. */
  function Trim(s: string): string {
    TrimEnd(TrimStart(s))
  }

  /**
   * Trimming removes exactly the white space at both ends: the result is a
   * piece of `s` that neither starts nor ends with white space, and trimming
   * it again changes nothing.
   */
  lemma TrimFacts(s: string)
    ensures var r := Trim(s);
      && (exists i, j :: 0 <= i <= j <= |s| && r == s[i..j])
      && (r == [] || (!IsTrimmable(r[0]) && !IsTrimmable(r[|r| - 1])))
      && Trim(r) == r
  {
    var t := TrimStart(s);
    var r := TrimEnd(t);
    PrefixOfSuffix(s, t, r);
    if r != [] {
      assert r[0] == t[0];
    }
    TrimClean(r);
  }

  /** A prefix of a suffix of `s` is a slice of `s`. */
  lemma PrefixOfSuffix(s: string, t: string, r: string)
    requires |t| <= |s| && t == s[|s| - |t|..]
    requires |r| <= |t| && r == t[..|r|]
    ensures exists i, j :: 0 <= i <= j <= |s| && r == s[i..j]
  {
    var i, j := |s| - |t|, |s| - |t| + |r|;
    assert r == s[i..j];
  }

  lemma TrimClean(r: string)
    requires r == [] || (!IsTrimmable(r[0]) && !IsTrimmable(r[|r| - 1]))
    ensures Trim(r) == r
  {
    assert TrimStart(r) == r;
  }

  /** `s.split(",")`: the pieces between commas, including empty ones. */
  function Split(s: string): (r: seq<string>)
    ensures |r| >= 1
    ensures forall k :: 0 <= k < |r| ==> ',' !in r[k]
  {
    if s == [] then [""]
    else
      var rest := Split(s[1..]);
      if s[0] == ',' then [""] + rest
      else [[s[0]] + rest[0]] + rest[1..]
  }

  /** `pieces.join(",")`. */
  function Join(pieces: seq<string>): string
    requires |pieces| >= 1
  {
    if |pieces| == 1 then pieces[0] else pieces[0] + "," + Join(pieces[1..])
  }

  /** Splitting and joining again gives back the text. */
  lemma {:induction false} JoinSplit(s: string)
    ensures Join(Split(s)) == s
  {
    if s != [] {
      JoinSplit(s[1..]);
      var rest := Split(s[1..]);
      if s[0] == ',' {
        assert Split(s)[1..] == rest;
        assert s == "," + s[1..];
      } else {
        var r := Split(s);
        assert r[0] == [s[0]] + rest[0];
        if |rest| > 1 {
          assert r[1..] == rest[1..];
          assert Join(rest) == rest[0] + "," + Join(rest[1..]);
        }
        assert s == [s[0]] + s[1..];
      }
    }
  }

  /** Joining comma-free pieces and splitting again gives back the pieces. */
  lemma {:induction false} SplitJoin(pieces: seq<string>)
    requires |pieces| >= 1
    requires forall k :: 0 <= k < |pieces| ==> ',' !in pieces[k]
    ensures Split(Join(pieces)) == pieces
  {
    if |pieces| == 1 {
      SplitCommaFree(pieces[0], "", false);
      assert pieces[0] + "" == pieces[0];
    } else {
      SplitJoin(pieces[1..]);
      SplitCommaFree(pieces[0], Join(pieces[1..]), true);
      assert pieces[0] + "," + Join(pieces[1..]) == pieces[0] + ("," + Join(pieces[1..]));
      assert pieces == [pieces[0]] + pieces[1..];
    }
  }

  /** Splitting a comma-free piece followed by more text, or by nothing. */
  lemma {:induction false} SplitCommaFree(a: string, tail: string, comma: bool)
    requires ',' !in a
    requires !comma ==> tail == ""
    ensures comma ==> Split(a + ("," + tail)) == [a] + Split(tail)
    ensures !comma ==> Split(a) == [a]
  {
    if a == [] {
      if comma {
        assert a + ("," + tail) == "," + tail;
        assert ("," + tail)[1..] == tail;
      }
    } else {
      SplitCommaFree(a[1..], tail, comma);
      if comma {
        var s := a + ("," + tail);
        assert s[0] == a[0] && s[1..] == a[1..] + ("," + tail);
        assert [a[0]] + a[1..] == a;
      } else {
        assert [a[0]] + a[1..] == a;
      }
    }
  }

  /** The trimmed, non-blank pieces of `pieces`. */
  function NonBlank(pieces: seq<string>): set<string> {
    set p | p in pieces && Trim(p) != "" :: Trim(p)
  }

  lemma NonBlankEmpty(pieces: seq<string>)
    ensures NonBlank(pieces) == {} <==> forall p :: p in pieces ==> Trim(p) == ""
  {
    if exists p :: p in pieces && Trim(p) != "" {
      var p :| p in pieces && Trim(p) != "";
      assert Trim(p) in NonBlank(pieces);
    }
  }

  /**
   * `parseAllowMints`: nothing when `ALLOW_MINTS` is unset or empty or has
   * only blank pieces; otherwise the set of its trimmed, non-blank pieces.
   */
  function ParseAllowMints(raw: Option<string>): (r: Option<set<string>>)
    ensures r.None? <==> raw.None? || forall p :: p in Split(raw.value) ==> Trim(p) == ""
    ensures r.Some? ==> r.value == NonBlank(Split(raw.value))
    ensures r.Some? ==> forall m :: m in r.value ==> m != "" && ',' !in m && Trim(m) == m
  {
    if raw.None? || raw.value == "" then None
    else
      var mints := NonBlank(Split(raw.value));
      NonBlankEmpty(Split(raw.value));
      NonBlankClean(Split(raw.value));
      if mints == {} then None else Some(mints)
  }

  /** The trimmed non-blank pieces of comma-free pieces are non-empty, comma-free and trimmed. */
  lemma NonBlankClean(pieces: seq<string>)
    requires forall k :: 0 <= k < |pieces| ==> ',' !in pieces[k]
    ensures forall m :: m in NonBlank(pieces) ==> m != "" && ',' !in m && Trim(m) == m
  {
    forall m | m in NonBlank(pieces) ensures m != "" && ',' !in m && Trim(m) == m {
      var p :| p in pieces && Trim(p) != "" && Trim(p) == m;
      TrimFacts(p);
    }
  }

  /**
   * A list of clean mint addresses written with commas between them parses
   * back to exactly that set of addresses.
   */
  lemma ParseJoinedMints(mints: seq<string>)
    requires |mints| >= 1
    requires forall k :: 0 <= k < |mints| ==> mints[k] != "" && ',' !in mints[k] && Trim(mints[k]) == mints[k]
    ensures ParseAllowMints(Some(Join(mints))) == Some(set m | m in mints)
  {
    SplitJoin(mints);
    var text := Join(mints);
    assert Trim(mints[0]) != "";
    if text == "" {
      JoinSplit(text);
      assert Split(text) == [""];
    }
    assert NonBlank(mints) == set m | m in mints;
  }
}
