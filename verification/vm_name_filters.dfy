/**
 * The Ansible filters that name the replicated VMs: camel-casing, the target-name rule
 * `vm-{os}-{env}-{app}`, parsing a list of requested VM names (with the `STOP_ALL` token),
 * selecting VM specs by name, and the short VMSS hostname.
 *
 * Python's `str.strip`, `lower`, `upper`, `capitalize` and the regular-expression classes
 * `\s` and `\d` are taken on their ASCII meaning.
 */
module VmNameFilters {
  import opened Base
  import opened Text

  /** `_normalize_vm_name`: `None` gives the empty string, anything else its stripped `str()`. */
  function NormalizeVmName(v: PyValue): (r: string)
    ensures v.PyNone? ==> r == ""
    ensures v.PyStr? ==> r == Strip(v.s)
    ensures r != [] ==> !IsSpace(r[0]) && !IsSpace(r[|r| - 1])
  {
    if v.PyNone? then "" else Strip(PyStrOf(v))
  }

  // ---------------------------------------------------------------------------
  // Camel-casing
  // ---------------------------------------------------------------------------

  /** A character of the class `[-_\s]`. */
  predicate IsSep(c: char) {
    c == '-' || c == '_' || IsSpace(c)
  }

  predicate NoSep(s: string) {
    forall i :: 0 <= i < |s| ==> !IsSep(s[i])
  }

  /** `s` with every separator character removed. */
  function RemoveSeps(s: string): (r: string)
    ensures NoSep(r) && |r| <= |s|
  {
    if s == [] then [] else (if IsSep(s[0]) then [] else [s[0]]) + RemoveSeps(s[1..])
  }

  /** `"".join(parts)` */
  function Concat(parts: seq<string>): string {
    if parts == [] then "" else parts[0] + Concat(parts[1..])
  }

  /**
   * `re.split(r"[-_\s]+", s)`: the pieces between maximal runs of separators, with an empty
   * piece in front when `s` starts with a separator and one at the end when it ends with one.
   */
  function SepSplit(s: string): (parts: seq<string>)
    ensures |parts| >= 1
    ensures forall i :: 0 <= i < |parts| ==> NoSep(parts[i])
    decreases |s|
  {
    if s == [] then [""]
    else if IsSep(s[0]) then
      if |s| > 1 && IsSep(s[1]) then SepSplit(s[1..]) else [""] + SepSplit(s[1..])
    else
      var rest := SepSplit(s[1..]);
      [[s[0]] + rest[0]] + rest[1..]
  }

  /** Splitting drops the separators and nothing else. */
  lemma {:induction false} SepSplitDropsOnlySeparators(s: string)
    ensures Concat(SepSplit(s)) == RemoveSeps(s)
    decreases |s|
  {
    if s != [] {
      SepSplitDropsOnlySeparators(s[1..]);
      var rest := SepSplit(s[1..]);
      if IsSep(s[0]) {
        if !(|s| > 1 && IsSep(s[1])) {
          assert Concat([""] + rest) == "" + Concat(rest) by {
            assert ([""] + rest)[1..] == rest;
          }
        }
      } else {
        var parts := [[s[0]] + rest[0]] + rest[1..];
        assert parts[1..] == rest[1..];
        assert Concat(rest) == rest[0] + Concat(rest[1..]);
      }
    }
  }

  /** A maximal stretch that `re.split(r"[-_\s]+", …)` consumes: non-empty and separators only. */
  predicate SepRun(r: string) {
    r != [] && forall i :: 0 <= i < |r| ==> IsSep(r[i])
  }

  /** `parts[0] + runs[0] + parts[1] + … + runs[|runs| - 1] + parts[|runs|]` */
  function Interleave(parts: seq<string>, runs: seq<string>): string
    requires |parts| == |runs| + 1
    decreases |runs|
  {
    if runs == [] then parts[0] else parts[0] + runs[0] + Interleave(parts[1..], runs[1..])
  }

  /** The separator runs of `s`, left to right: what `re.split` drops between the pieces. */
  function SepRuns(s: string): (runs: seq<string>)
    ensures s != [] && IsSep(s[0]) ==> runs != []
    decreases |s|
  {
    if s == [] then []
    else if IsSep(s[0]) then
      var rest := SepRuns(s[1..]);
      if |s| > 1 && IsSep(s[1]) then [[s[0]] + rest[0]] + rest[1..] else [[s[0]]] + rest
    else SepRuns(s[1..])
  }

  /**
   * `s` cut into `parts` at the separator runs `runs`: the pieces carry no separator, every run is
   * non-empty, and only the first and the last piece may be empty. Since two runs are always kept
   * apart by a non-empty piece, each run is maximal.
   */
  predicate SplitAt(s: string, parts: seq<string>, runs: seq<string>) {
    && |parts| == |runs| + 1
    && (forall i :: 0 <= i < |parts| ==> NoSep(parts[i]))
    && (forall j :: 0 <= j < |runs| ==> SepRun(runs[j]))
    && (forall i :: 0 < i < |parts| - 1 ==> parts[i] != "")
    && s == Interleave(parts, runs)
  }

  /** The pieces of `SepSplit` and the runs between them rebuild the input. */
  lemma {:induction false} SepSplitInterleaves(s: string)
    ensures SplitAt(s, SepSplit(s), SepRuns(s))
    ensures s != [] && IsSep(s[0]) ==> SepSplit(s)[0] == ""
    ensures s != [] && !IsSep(s[0]) ==> SepSplit(s)[0] != ""
    decreases |s|
  {
    if s != [] {
      var t := s[1..];
      SepSplitInterleaves(t);
      assert s == [s[0]] + t;
      if !IsSep(s[0]) {
        ConsPiece(s[0], t, SepSplit(t), SepRuns(t));
      } else if |s| > 1 && IsSep(s[1]) {
        ConsLongRun(s[0], t, SepSplit(t), SepRuns(t));
      } else {
        ConsShortRun(s[0], t, SepSplit(t), SepRuns(t));
      }
    }
  }

  /** A non-separator in front joins the first piece. */
  lemma ConsPiece(c: char, t: string, p: seq<string>, r: seq<string>)
    requires SplitAt(t, p, r) && !IsSep(c)
    ensures SplitAt([c] + t, [[c] + p[0]] + p[1..], r)
  {
    var parts := [[c] + p[0]] + p[1..];
    assert parts[1..] == p[1..];
    assert forall i :: 0 < i < |parts| ==> parts[i] == p[i];
    assert NoSep(parts[0]) by {
      assert forall i :: 0 < i < |parts[0]| ==> parts[0][i] == p[0][i - 1];
    }
    if r != [] {
      assert t == p[0] + r[0] + Interleave(p[1..], r[1..]);
    }
  }

  /** A separator in front of a run lengthens that run. */
  lemma ConsLongRun(c: char, t: string, p: seq<string>, r: seq<string>)
    requires SplitAt(t, p, r) && IsSep(c) && p[0] == "" && r != []
    ensures SplitAt([c] + t, p, [[c] + r[0]] + r[1..])
  {
    var runs := [[c] + r[0]] + r[1..];
    assert runs[1..] == r[1..];
    assert forall j :: 0 < j < |runs| ==> runs[j] == r[j];
    assert SepRun(runs[0]) by {
      assert forall i :: 0 < i < |runs[0]| ==> runs[0][i] == r[0][i - 1];
    }
    assert t == p[0] + r[0] + Interleave(p[1..], r[1..]);
  }

  /** A lone separator in front opens a new run after an empty first piece. */
  lemma ConsShortRun(c: char, t: string, p: seq<string>, r: seq<string>)
    requires SplitAt(t, p, r) && IsSep(c) && (|p| >= 2 ==> p[0] != "")
    ensures SplitAt([c] + t, [""] + p, [[c]] + r)
  {
    var parts, runs := [""] + p, [[c]] + r;
    assert parts[1..] == p && runs[1..] == r;
    assert forall i :: 1 <= i < |parts| ==> parts[i] == p[i - 1];
    assert forall j :: 1 <= j < |runs| ==> runs[j] == r[j - 1];
  }

  /** Any cut of `s` in the sense of `SplitAt` is the one `SepSplit` and `SepRuns` make. */
  lemma {:induction false} SepSplitUnique(s: string, parts: seq<string>, runs: seq<string>)
    requires SplitAt(s, parts, runs)
    ensures parts == SepSplit(s) && runs == SepRuns(s)
    decreases |s|
  {
    if parts[0] != "" {
      UniqueFromPiece(s, parts, runs);
    } else if runs != [] {
      if |runs[0]| >= 2 {
        UniqueFromLongRun(s, parts, runs);
      } else {
        UniqueFromShortRun(s, parts, runs);
      }
    }
  }

  /** `SepSplitUnique` when `s` starts inside the first piece. */
  lemma {:induction false} UniqueFromPiece(s: string, parts: seq<string>, runs: seq<string>)
    requires SplitAt(s, parts, runs) && parts[0] != ""
    ensures parts == SepSplit(s) && runs == SepRuns(s)
    decreases |s|, 0
  {
    var parts' := [parts[0][1..]] + parts[1..];
    Uncons(s, parts, runs);
    SepSplitUnique(s[1..], parts', runs);
    assert [s[0]] + parts'[0] == parts[0];
    assert parts == [[s[0]] + parts'[0]] + parts'[1..];
  }

  /** Dropping the first character of a non-empty first piece leaves a cut of the rest. */
  lemma Uncons(s: string, parts: seq<string>, runs: seq<string>)
    requires SplitAt(s, parts, runs) && parts[0] != ""
    ensures s != [] && s[0] == parts[0][0] && !IsSep(s[0])
    ensures SplitAt(s[1..], [parts[0][1..]] + parts[1..], runs)
  {
    var parts' := [parts[0][1..]] + parts[1..];
    assert parts'[1..] == parts[1..];
    assert forall i :: 0 < i < |parts'| ==> parts'[i] == parts[i];
    assert s == [parts[0][0]] + Interleave(parts', runs);
  }

  /** `SepSplitUnique` when `s` starts with a run of two or more separators. */
  lemma {:induction false} UniqueFromLongRun(s: string, parts: seq<string>, runs: seq<string>)
    requires SplitAt(s, parts, runs) && parts[0] == "" && runs != [] && |runs[0]| >= 2
    ensures parts == SepSplit(s) && runs == SepRuns(s)
    decreases |s|, 0
  {
    var runs' := [runs[0][1..]] + runs[1..];
    assert runs'[1..] == runs[1..];
    assert forall j :: 0 < j < |runs'| ==> runs'[j] == runs[j];
    assert SepRun(runs'[0]);
    assert s == [runs[0][0]] + Interleave(parts, runs');
    assert s[0] == runs[0][0] && s[1] == runs[0][1];
    SepSplitUnique(s[1..], parts, runs');
    assert [s[0]] + runs'[0] == runs[0];
    assert runs == [[s[0]] + runs'[0]] + runs'[1..];
  }

  /** `SepSplitUnique` when `s` starts with a single separator. */
  lemma {:induction false} UniqueFromShortRun(s: string, parts: seq<string>, runs: seq<string>)
    requires SplitAt(s, parts, runs) && parts[0] == "" && runs != [] && |runs[0]| == 1
    ensures parts == SepSplit(s) && runs == SepRuns(s)
    decreases |s|, 0
  {
    var t := s[1..];
    assert s == runs[0] + Interleave(parts[1..], runs[1..]);
    assert s[0] == runs[0][0];
    assert t == Interleave(parts[1..], runs[1..]);
    assert forall i :: 0 < i < |parts[1..]| - 1 ==> parts[1..][i] == parts[i + 1];
    if t != [] {
      if |parts| > 2 {
        assert parts[1] != "";
      }
      assert t[0] == parts[1][0];
    }
    SepSplitUnique(t, parts[1..], runs[1..]);
    assert runs[0] == [s[0]];
    assert parts == [""] + parts[1..] && runs == [[s[0]]] + runs[1..];
  }

  /** A string without separators is one piece. */
  lemma SepSplitWholeExample()
    ensures SepSplit("ab") == ["ab"] && SepRuns("ab") == []
  {
    assert Interleave(["ab"], []) == "ab";
    SepSplitUnique("ab", ["ab"], []);
  }

  /** Separator runs at either end leave empty pieces there; each run is cut whole. */
  lemma SepSplitEdgeRunsExample()
    ensures SepSplit("--a__b ") == ["", "a", "b", ""] && SepRuns("--a__b ") == ["--", "__", " "]
  {
    var parts, runs := ["", "a", "b", ""], ["--", "__", " "];
    assert Interleave(parts[2..], runs[2..]) == "b" + " " + "" by {
      assert parts[2..][1..] == [""] && runs[2..][1..] == [];
    }
    assert Interleave(parts[1..], runs[1..]) == "a" + "__" + "b" + " " + "" by {
      assert parts[1..][1..] == parts[2..] && runs[1..][1..] == runs[2..];
    }
    assert "" + "--" + "a" + "__" + "b" + " " + "" == "--a__b ";
    SepSplitUnique("--a__b ", parts, runs);
  }

  /** Changing the case of letters neither creates nor removes separators. */
  lemma CaseKeepsNoSep(s: string)
    requires NoSep(s)
    ensures NoSep(Lower(s)) && NoSep(Capitalize(s))
  {
    assert forall i :: 0 <= i < |s| ==> !IsSep(LowerChar(s[i])) && !IsSep(UpperChar(s[i]));
  }

  lemma NoSepAppend(a: string, b: string)
    requires NoSep(a) && NoSep(b)
    ensures NoSep(a + b)
  {
    assert forall i :: |a| <= i < |a + b| ==> (a + b)[i] == b[i - |a|];
  }

  /** The capitalised tail pieces, concatenated. */
  function CapitalizedTail(parts: seq<string>): (r: string)
    requires forall i :: 0 <= i < |parts| ==> NoSep(parts[i])
    ensures NoSep(r)
    ensures |r| == |Concat(parts)|
  {
    if parts == [] then ""
    else
      var tail := CapitalizedTail(parts[1..]);
      CaseKeepsNoSep(parts[0]);
      NoSepAppend(Capitalize(parts[0]), tail);
      Capitalize(parts[0]) + tail
  }

  /**
   * `to_camel_case`: split the stripped string on separator runs, lower-case the first piece
   * and capitalise the others. The result carries no separator.
   */
  function ToCamelCase(raw: string): (r: string)
    ensures NoSep(r)
  {
    var parts := SepSplit(Strip(raw));
    CaseKeepsNoSep(parts[0]);
    NoSepAppend(Lower(parts[0]), CapitalizedTail(parts[1..]));
    Lower(parts[0]) + CapitalizedTail(parts[1..])
  }

  /** The first `i` pieces, joined, are the first piece followed by the next `i - 1` joined. */
  lemma ConcatHead(parts: seq<string>, i: nat)
    requires 1 <= i <= |parts|
    ensures Concat(parts[..i]) == parts[0] + Concat(parts[1..][..i - 1])
  {
    assert parts[..i][1..] == parts[1..][..i - 1];
  }

  lemma SliceAfterPrefix(c: string, t: string, x: nat, y: nat)
    requires x <= y <= |t|
    ensures (c + t)[|c| + x..|c| + y] == t[x..y]
  {
    assert forall k :: 0 <= k < y - x ==> (c + t)[|c| + x..|c| + y][k] == t[x..y][k];
  }

  /**
   * In `h + CapitalizedTail(parts[1..])`, where `h` stands for the first piece, the stretch
   * that piece `i` of the plain concatenation occupies is `h` for the first piece and the
   * piece capitalised for the others.
   */
  lemma {:induction false} HeadTailPiece(h: string, parts: seq<string>, i: nat)
    requires forall j :: 0 <= j < |parts| ==> NoSep(parts[j])
    requires i < |parts| && |h| == |parts[0]|
    ensures |Concat(parts[..i])| <= |Concat(parts[..i + 1])| <= |h + CapitalizedTail(parts[1..])|
    ensures (h + CapitalizedTail(parts[1..]))[|Concat(parts[..i])|..|Concat(parts[..i + 1])|]
            == if i == 0 then h else Capitalize(parts[i])
    decreases |parts|, 1
  {
    if i == 0 {
      HeadPiece(h, parts);
    } else {
      LaterPiece(h, parts, i);
    }
  }

  /** A piece after the first, shifted past `h`. */
  lemma {:induction false} LaterPiece(h: string, parts: seq<string>, i: nat)
    requires forall j :: 0 <= j < |parts| ==> NoSep(parts[j])
    requires 1 <= i < |parts| && |h| == |parts[0]|
    ensures |Concat(parts[..i])| <= |Concat(parts[..i + 1])| <= |h + CapitalizedTail(parts[1..])|
    ensures (h + CapitalizedTail(parts[1..]))[|Concat(parts[..i])|..|Concat(parts[..i + 1])|]
            == Capitalize(parts[i])
    decreases |parts|, 0
  {
    var rest := parts[1..];
    CapitalizedTailPiece(rest, i - 1);
    ConcatHead(parts, i);
    ConcatHead(parts, i + 1);
    assert rest[i - 1] == parts[i];
    ShiftPiece(h, CapitalizedTail(rest), |Concat(rest[..i - 1])|, |Concat(rest[..i])|,
               |Concat(parts[..i])|, |Concat(parts[..i + 1])|, Capitalize(parts[i]));
  }

  /** A stretch of `t` is found in `h + t` shifted by `|h|`. */
  lemma ShiftPiece(h: string, t: string, x: nat, y: nat, a: nat, b: nat, piece: string)
    requires x <= y <= |t| && a == |h| + x && b == |h| + y && t[x..y] == piece
    ensures a <= b <= |h + t| && (h + t)[a..b] == piece
  {
    SliceAfterPrefix(h, t, x, y);
  }

  /** The first piece occupies the first `|parts[0]|` characters. */
  lemma HeadPiece(h: string, parts: seq<string>)
    requires forall j :: 0 <= j < |parts| ==> NoSep(parts[j])
    requires 0 < |parts| && |h| == |parts[0]|
    ensures |Concat(parts[..0])| == 0 && |Concat(parts[..1])| == |h|
    ensures |h| <= |h + CapitalizedTail(parts[1..])|
    ensures (h + CapitalizedTail(parts[1..]))[0..|h|] == h
  {
    assert parts[..0] == [];
    assert parts[..1] == [parts[0]];
    assert Concat([parts[0]]) == parts[0] + Concat([]);
  }

  /**
   * Piece `i` of the capitalised tail sits where piece `i` of the plain concatenation sits,
   * and is that piece capitalised.
   */
  lemma {:induction false} CapitalizedTailPiece(parts: seq<string>, i: nat)
    requires forall j :: 0 <= j < |parts| ==> NoSep(parts[j])
    requires i < |parts|
    ensures |Concat(parts[..i])| <= |Concat(parts[..i + 1])| <= |CapitalizedTail(parts)|
    ensures CapitalizedTail(parts)[|Concat(parts[..i])|..|Concat(parts[..i + 1])|] == Capitalize(parts[i])
    decreases |parts|, 2
  {
    assert CapitalizedTail(parts) == Capitalize(parts[0]) + CapitalizedTail(parts[1..]);
    HeadTailPiece(Capitalize(parts[0]), parts, i);
  }

  /**
   * The case pattern of `to_camel_case`: in the result, the stretch that piece `i` of the
   * split occupies is that piece lower-cased when it is the first and capitalised otherwise,
   * and the pieces together fill the whole result.
   */
  lemma CamelCasePiece(raw: string, i: nat)
    requires i < |SepSplit(Strip(raw))|
    ensures var parts, r := SepSplit(Strip(raw)), ToCamelCase(raw);
            && |r| == |Concat(parts)|
            && |Concat(parts[..i])| <= |Concat(parts[..i + 1])| <= |r|
            && r[|Concat(parts[..i])|..|Concat(parts[..i + 1])|]
               == if i == 0 then Lower(parts[0]) else Capitalize(parts[i])
  {
    var parts := SepSplit(Strip(raw));
    assert ToCamelCase(raw) == Lower(parts[0]) + CapitalizedTail(parts[1..]);
    HeadTailPiece(Lower(parts[0]), parts, i);
  }

  /** Up to case, camel-casing only removes the separators. */
  lemma CamelCaseKeepsLetters(raw: string)
    ensures Lower(ToCamelCase(raw)) == Lower(RemoveSeps(Strip(raw)))
  {
    var parts := SepSplit(Strip(raw));
    SepSplitDropsOnlySeparators(Strip(raw));
    LowerAppend(Lower(parts[0]), CapitalizedTail(parts[1..]));
    LowerIdempotent(parts[0]);
    LowerCapitalizedTail(parts[1..]);
    LowerConcat(parts);
  }

  lemma LowerAppend(a: string, b: string)
    ensures Lower(a + b) == Lower(a) + Lower(b)
  {
  }

  lemma LowerIdempotent(a: string)
    ensures Lower(Lower(a)) == Lower(a)
  {
  }

  lemma {:induction false} LowerCapitalizedTail(parts: seq<string>)
    requires forall i :: 0 <= i < |parts| ==> NoSep(parts[i])
    ensures Lower(CapitalizedTail(parts)) == Lower(Concat(parts))
  {
    if parts != [] {
      LowerAppend(Capitalize(parts[0]), CapitalizedTail(parts[1..]));
      LowerAppend(parts[0], Concat(parts[1..]));
      assert Lower(Capitalize(parts[0])) == Lower(parts[0]);
      LowerCapitalizedTail(parts[1..]);
    }
  }

  lemma {:induction false} LowerConcat(parts: seq<string>)
    requires parts != []
    ensures Lower(Lower(parts[0]) + Concat(parts[1..])) == Lower(Concat(parts))
  {
    LowerAppend(Lower(parts[0]), Concat(parts[1..]));
    LowerAppend(parts[0], Concat(parts[1..]));
    LowerIdempotent(parts[0]);
  }

  // ---------------------------------------------------------------------------
  // The target VM name
  // ---------------------------------------------------------------------------

  const DcaPrefix: string := "dca"
  const LnxPrefix: string := "lnx"
  const DefaultOsPrefix: string := "vm"
  const DefaultEnv: string := "prod"
  const TargetPrefix: string := "vm-"

  /** A non-blank override replaces the computed name. */
  predicate OverrideGiven(o: PyValue) {
    Truthy(o) && Strip(PyStrOf(o)) != ""
  }

  /** `str(source_vm_name or "").strip()` */
  function SourceName(source: PyValue): (name: string)
    ensures name != [] ==> !IsSpace(name[0]) && !IsSpace(name[|name| - 1])
  {
    Strip(if Truthy(source) then PyStrOf(source) else "")
  }

  /** `re.match(r"^(dca|lnx)", name, re.IGNORECASE)` */
  predicate HasOsPrefix(name: string) {
    |name| >= 3 && (Lower(name[..3]) == DcaPrefix || Lower(name[..3]) == LnxPrefix)
  }

  /** The OS segment: the matched prefix lower-cased, or `vm`. */
  function OsPrefix(name: string): (os: string)
    ensures os == DcaPrefix || os == LnxPrefix || os == DefaultOsPrefix
    ensures os == DefaultOsPrefix <==> !HasOsPrefix(name)
    ensures HasOsPrefix(name) ==> os == Lower(name[..3])
  {
    if HasOsPrefix(name) then Lower(name[..3]) else DefaultOsPrefix
  }

  /** The environment segment: a truthy `env` entry of the spec, else `prod`. */
  function TargetEnv(spec: Option<map<string, PyValue>>): (env: string)
    ensures env != []
    ensures spec.Some? && Truthy(Get(spec.value, "env")) ==> env == PyStrOf(Get(spec.value, "env"))
    ensures !(spec.Some? && Truthy(Get(spec.value, "env"))) ==> env == DefaultEnv
  {
    if spec.Some? && Truthy(Get(spec.value, "env")) then PyStrOf(Get(spec.value, "env")) else DefaultEnv
  }

  /** `re.sub(r"^(dca|lnx)-?", "", name, flags=re.IGNORECASE)` */
  function DropOsPrefix(name: string): (r: string)
    ensures !HasOsPrefix(name) ==> r == name
    ensures HasOsPrefix(name) ==> name[3..] == "-" + r || (name[3..] == r && (r == [] || r[0] != '-'))
  {
    if !HasOsPrefix(name) then name
    else if |name| > 3 && name[3] == '-' then name[4..]
    else name[3..]
  }

  /** The application name before camel-casing: a truthy `app_name` entry, else the source name without its OS prefix. */
  function AppNameRaw(name: string, spec: Option<map<string, PyValue>>): string {
    if spec.Some? && Truthy(Get(spec.value, "app_name")) then PyStrOf(Get(spec.value, "app_name"))
    else DropOsPrefix(name)
  }

  predicate EndsWithDigit(s: string) {
    s != [] && IsDigit(s[|s| - 1])
  }

  /** The number of digits `re.search(r"(\d+)$", s)` finds at the end of `s`. */
  function TrailingDigitCount(s: string): (n: nat)
    ensures n <= |s|
    ensures forall i :: |s| - n <= i < |s| ==> IsDigit(s[i])
    ensures n < |s| ==> !IsDigit(s[|s| - n - 1])
    ensures n > 0 <==> EndsWithDigit(s)
  {
    if s == [] || !IsDigit(s[|s| - 1]) then 0 else 1 + TrailingDigitCount(s[..|s| - 1])
  }

  /** The maximal run of digits ending `s`. */
  function TrailingDigits(s: string): (d: string)
    ensures |d| <= |s| && d == s[|s| - |d|..]
    ensures forall i :: 0 <= i < |d| ==> IsDigit(d[i])
    ensures |d| < |s| ==> !IsDigit(s[|s| - |d| - 1])
    ensures d != [] <==> EndsWithDigit(s)
  {
    s[|s| - TrailingDigitCount(s)..]
  }

  /** No `_` and no whitespace: what remains of the separators once camel-casing has run. */
  predicate DashOnly(s: string) {
    forall i :: 0 <= i < |s| ==> s[i] != '_' && !IsSpace(s[i])
  }

  lemma NoSepIsDashOnly(s: string)
    requires NoSep(s)
    ensures DashOnly(s)
  {
  }

  lemma DigitsAreDashOnly(s: string)
    requires forall i :: 0 <= i < |s| ==> IsDigit(s[i])
    ensures DashOnly(s)
  {
  }

  lemma DashIsDashOnly()
    ensures DashOnly("-")
  {
    assert "-"[0] == '-';
  }

  lemma DashOnlyAppend(a: string, b: string)
    requires DashOnly(a) && DashOnly(b)
    ensures DashOnly(a + b)
  {
    assert forall i :: |a| <= i < |a + b| ==> (a + b)[i] == b[i - |a|];
  }

  /**
   * The application segment: the camel-cased application name, followed by `-` and the
   * source name's trailing digits when the name ends in digits and the camel-cased name does not.
   */
  function AppSegment(name: string, spec: Option<map<string, PyValue>>): (app: string)
    ensures EndsWithDigit(name) ==> EndsWithDigit(app)
    ensures DashOnly(app)
    ensures app == ToCamelCase(AppNameRaw(name, spec))
         || (EndsWithDigit(name) && !EndsWithDigit(ToCamelCase(AppNameRaw(name, spec)))
             && app == ToCamelCase(AppNameRaw(name, spec)) + "-" + TrailingDigits(name))
  {
    var camel := ToCamelCase(AppNameRaw(name, spec));
    var digits := TrailingDigits(name);
    NoSepIsDashOnly(camel);
    DigitsAreDashOnly(digits);
    DashIsDashOnly();
    DashOnlyAppend(camel, "-");
    DashOnlyAppend(camel + "-", digits);
    if digits != [] && !EndsWithDigit(camel) then camel + "-" + digits else camel
  }

  /** `compute_target_vm_name` */
  function ComputeTargetVmName(source: PyValue, spec: Option<map<string, PyValue>>, override: PyValue): (r: string)
    ensures OverrideGiven(override) ==> r == Strip(PyStrOf(override))
    ensures !OverrideGiven(override) ==>
      r == TargetPrefix + OsPrefix(SourceName(source)) + "-" + TargetEnv(spec) + "-" + AppSegment(SourceName(source), spec)
  {
    if OverrideGiven(override) then Strip(PyStrOf(override))
    else
      var name := SourceName(source);
      TargetPrefix + OsPrefix(name) + "-" + TargetEnv(spec) + "-" + AppSegment(name, spec)
  }

  /**
   * Without an override, the name starts with `vm-` and one of the three OS segments, and it
   * ends in a digit whenever the source name does.
   */
  lemma TargetNameShape(source: PyValue, spec: Option<map<string, PyValue>>, override: PyValue)
    requires !OverrideGiven(override)
    ensures var r := ComputeTargetVmName(source, spec, override);
      var os := OsPrefix(SourceName(source));
      && TargetPrefix + os + "-" <= r
      && (os == DcaPrefix || os == LnxPrefix || os == DefaultOsPrefix)
      && (EndsWithDigit(SourceName(source)) ==> EndsWithDigit(r))
  {
    var name := SourceName(source);
    var head := TargetPrefix + OsPrefix(name) + "-";
    var env := TargetEnv(spec);
    var app := AppSegment(name, spec);
    PrefixOfAppend(head, head, env);
    PrefixOfAppend(head, head + env, "-");
    PrefixOfAppend(head, head + env + "-", app);
    if EndsWithDigit(name) {
      EndsWithDigitAppend(head + env + "-", app);
    }
  }

  lemma EndsWithDigitAppend(a: string, b: string)
    requires EndsWithDigit(b)
    ensures EndsWithDigit(a + b)
  {
    assert (a + b)[|a + b| - 1] == b[|b| - 1];
  }

  // ---------------------------------------------------------------------------
  // Requested names and selection
  // ---------------------------------------------------------------------------

  /** The token `_parse_names_input` returns for `STOP_ALL`. */
  const StopAllToken: string := "__STOP_ALL__"
  const StopAllWord: string := "STOP_ALL"

  /** What the filter is given as names: a list (or tuple), or a single value (`None` is `NamesScalar(PyNone)`). */
  datatype NamesInput = NamesList(items: seq<PyValue>) | NamesScalar(v: PyValue)

  /** A name as the parser returns it: non-empty, no surrounding whitespace. */
  predicate CleanName(n: string) {
    n != [] && !IsSpace(n[0]) && !IsSpace(n[|n| - 1])
  }

  predicate AllClean(names: seq<string>) {
    forall i :: 0 <= i < |names| ==> CleanName(names[i])
  }

  /** Keeping a name in front of a list of clean names when it is non-empty keeps the list clean. */
  lemma KeepIfNonEmpty(n: string, rest: seq<string>)
    requires (n != [] ==> CleanName(n)) && AllClean(rest)
    ensures AllClean((if n != [] then [n] else []) + rest)
  {
    if n == [] {
      assert [] + rest == rest;
    } else {
      assert forall i :: 0 < i <= |rest| ==> ([n] + rest)[i] == rest[i - 1];
    }
  }

  /** `[_normalize_vm_name(n) for n in items if _normalize_vm_name(n)]` */
  function NormalizedNames(items: seq<PyValue>): (r: seq<string>)
    ensures |r| <= |items|
    ensures AllClean(r)
  {
    if items == [] then []
    else
      var n := NormalizeVmName(items[0]);
      var rest := NormalizedNames(items[1..]);
      KeepIfNonEmpty(n, rest);
      (if n != [] then [n] else []) + rest
  }

  /** Stripped, non-blank pieces are clean names. */
  lemma StrippedNonBlankClean(parts: seq<string>)
    ensures AllClean(StrippedNonBlank(parts))
  {
    var r := StrippedNonBlank(parts);
    forall i | 0 <= i < |r|
      ensures CleanName(r[i])
    {
      assert r[i] in r;
    }
  }

  /** A single item is kept, normalised, exactly when its normalised name is not empty. */
  lemma NormalizedNamesSingle(v: PyValue)
    ensures NormalizedNames([v]) == (if NormalizeVmName(v) != [] then [NormalizeVmName(v)] else [])
  {
    assert [v][1..] == [];
  }

  /** Normalising works item by item: a concatenation gives the concatenated results. */
  lemma {:induction false} NormalizedNamesAppend(a: seq<PyValue>, b: seq<PyValue>)
    ensures NormalizedNames(a + b) == NormalizedNames(a) + NormalizedNames(b)
  {
    if a != [] {
      var x, rest := a[0], a[1..];
      assert a == [x] + rest;
      assert a + b == [x] + (rest + b);
      NormalizedNamesCons(x, rest + b);
      NormalizedNamesCons(x, rest);
      NormalizedNamesAppend(rest, b);
    } else {
      assert a + b == b;
    }
  }

  /** Normalising a list with a first item. */
  lemma NormalizedNamesCons(x: PyValue, rest: seq<PyValue>)
    ensures NormalizedNames([x] + rest)
            == (if NormalizeVmName(x) != [] then [NormalizeVmName(x)] else []) + NormalizedNames(rest)
  {
    assert ([x] + rest)[0] == x;
    assert ([x] + rest)[1..] == rest;
  }

  /** `_parse_names_input` */
  function ParseNamesInput(input: NamesInput): (r: seq<string>)
    ensures input == NamesScalar(PyNone) ==> r == []
    ensures input.NamesList? ==> r == NormalizedNames(input.items)
    ensures input.NamesScalar? && Upper(Strip(PyStrOf(input.v))) == StopAllWord && !input.v.PyNone? ==> r == [StopAllToken]
    ensures input.NamesScalar? && Strip(PyStrOf(input.v)) == [] ==> r == []
    ensures r != [StopAllToken] ==> AllClean(r)
  {
    match input
    case NamesList(items) => NormalizedNames(items)
    case NamesScalar(v) =>
      if v.PyNone? then []
      else
        var raw := Strip(PyStrOf(v));
        if raw == [] then []
        else if Upper(raw) == StopAllWord then [StopAllToken]
        else
          StrippedNonBlankClean(Split(raw, ','));
          StrippedNonBlank(Split(raw, ','))
  }

  /**
   * Round trip: clean, comma-free names written as one comma-separated string are parsed back
   * to the same list.
   */
  lemma CommaSeparatedNamesRoundTrip(names: seq<string>)
    requires names != []
    requires AllClean(names) && forall i :: 0 <= i < |names| ==> ',' !in names[i]
    requires Upper(Join(names, ",")) != StopAllWord
    ensures ParseNamesInput(NamesScalar(PyStr(Join(names, ",")))) == names
  {
    var raw := Join(names, ",");
    JoinKeepsEnds(names);
    StripNoop(raw);
    ParseCommaSeparated(raw);
    assert forall p :: p in names ==> ',' !in p;
    SplitJoin(names, ',');
    StrippedCleanNames(names);
  }

  /**
   * Any other scalar is read through `str()`, stripped, split at its commas, and each piece
   * stripped with the blank ones dropped.
   */
  lemma ParseScalarNames(v: PyValue)
    requires !v.PyNone? && Strip(PyStrOf(v)) != [] && Upper(Strip(PyStrOf(v))) != StopAllWord
    ensures ParseNamesInput(NamesScalar(v)) == StrippedNonBlank(Split(Strip(PyStrOf(v)), ','))
  {
  }

  /** A clean string other than `STOP_ALL` is split at its commas. */
  lemma ParseCommaSeparated(raw: string)
    requires CleanName(raw) && Strip(raw) == raw && Upper(raw) != StopAllWord
    ensures ParseNamesInput(NamesScalar(PyStr(raw))) == StrippedNonBlank(Split(raw, ','))
  {
  }

  /** A comma-join of clean names is clean. */
  lemma {:induction false} JoinKeepsEnds(names: seq<string>)
    requires names != [] && AllClean(names)
    ensures CleanName(Join(names, ","))
  {
    if |names| > 1 {
      JoinKeepsEnds(names[1..]);
      var rest := Join(names[1..], ",");
      var j := names[0] + ("," + rest);
      assert Join(names, ",") == j;
      assert CleanName(names[0]);
      assert j[0] == names[0][0];
      assert j[|j| - 1] == rest[|rest| - 1];
    } else {
      assert CleanName(names[0]);
    }
  }

  lemma StrippedCleanNames(names: seq<string>)
    requires AllClean(names)
    ensures StrippedNonBlank(names) == names
  {
    forall p | p in names
      ensures p != "" && Strip(p) == p
    {
      var i :| 0 <= i < |names| && names[i] == p;
      StripNoop(p);
    }
    StrippedNonBlankNoop(names);
  }

  /** A VM spec: a dictionary, or some other value the filter ignores. */
  datatype VmSpec = SpecDict(fields: map<string, PyValue>) | NotDict

  /** The normalised `name` of a spec; empty for a non-dictionary. */
  function SpecName(spec: VmSpec): string {
    if spec.SpecDict? then NormalizeVmName(Get(spec.fields, "name")) else ""
  }

  /** The specs, in order, whose non-empty name was requested. */
  function Selected(specs: seq<VmSpec>, requested: set<string>): (r: seq<VmSpec>)
    ensures |r| <= |specs|
  {
    if specs == [] then []
    else (if Requested(specs[0], requested) then [specs[0]] else []) + Selected(specs[1..], requested)
  }

  /** A spec is requested when it has a non-empty name among the requested ones. */
  predicate Requested(x: VmSpec, requested: set<string>) {
    SpecName(x) != "" && SpecName(x) in requested
  }

  /** Exactly the requested specs are selected. */
  lemma {:induction false} SelectedMembership(specs: seq<VmSpec>, requested: set<string>, x: VmSpec)
    ensures x in Selected(specs, requested) <==> x in specs && Requested(x, requested)
  {
    if specs != [] {
      SelectedMembership(specs[1..], requested, x);
      assert specs == [specs[0]] + specs[1..];
    }
  }

  /** Selection keeps the order of the specs: it distributes over concatenation. */
  lemma {:induction false} SelectedPreservesOrder(a: seq<VmSpec>, b: seq<VmSpec>, requested: set<string>)
    ensures Selected(a + b, requested) == Selected(a, requested) + Selected(b, requested)
  {
    if a != [] {
      var x, rest := a[0], a[1..];
      assert a == [x] + rest;
      assert a + b == [x] + (rest + b);
      var head := if Requested(x, requested) then [x] else [];
      SelectedCons(x, rest + b, requested);
      SelectedCons(x, rest, requested);
      SelectedPreservesOrder(rest, b, requested);
      AppendAssociative(head, Selected(rest, requested), Selected(b, requested));
    } else {
      assert a + b == b;
    }
  }

  lemma AppendAssociative(x: seq<VmSpec>, y: seq<VmSpec>, z: seq<VmSpec>)
    ensures x + (y + z) == (x + y) + z
  {
  }

  /** Selection from a list with a first element. */
  lemma SelectedCons(x: VmSpec, rest: seq<VmSpec>, requested: set<string>)
    ensures Selected([x] + rest, requested)
         == (if Requested(x, requested) then [x] else []) + Selected(rest, requested)
  {
    assert ([x] + rest)[0] == x;
    assert ([x] + rest)[1..] == rest;
  }

  /** What `filter_vm_specs_by_names` returns (`specs` is `list(vm_specs or [])`). */
  function FilterResult(specs: seq<VmSpec>, input: NamesInput): seq<VmSpec> {
    var requested := ParseNamesInput(input);
    if requested == [] then []
    else if requested == [StopAllToken] then specs
    else Selected(specs, set n | n in requested)
  }

  /** Selecting one more spec of the list. */
  lemma SelectedSnoc(specs: seq<VmSpec>, i: nat, requested: set<string>)
    requires i < |specs|
    ensures Selected(specs[..i + 1], requested)
         == Selected(specs[..i], requested) + (if Requested(specs[i], requested) then [specs[i]] else [])
  {
    assert specs[..i + 1] == specs[..i] + [specs[i]];
    SelectedPreservesOrder(specs[..i], [specs[i]], requested);
    assert [specs[i]][1..] == [];
  }

  /** The selection loop of `filter_vm_specs_by_names`: append each matching spec, in order. */
  method SelectByNames(specs: seq<VmSpec>, requested: set<string>) returns (filtered: seq<VmSpec>)
    ensures filtered == Selected(specs, requested)
  {
    filtered := [];
    var i := 0;
    while i < |specs|
      invariant 0 <= i <= |specs|
      invariant filtered == Selected(specs[..i], requested)
    {
      SelectedSnoc(specs, i, requested);
      if Requested(specs[i], requested) {
        filtered := filtered + [specs[i]];
      }
      i := i + 1;
    }
    assert specs[..i] == specs;
  }

  /** `filter_vm_specs_by_names` */
  method FilterVmSpecsByNames(specs: seq<VmSpec>, input: NamesInput) returns (filtered: seq<VmSpec>)
    ensures filtered == FilterResult(specs, input)
  {
    var requested := ParseNamesInput(input);
    if requested == [] {
      return [];
    }
    if |requested| == 1 && requested[0] == StopAllToken {
      assert requested == [StopAllToken];
      return specs;
    }
    filtered := SelectByNames(specs, set n | n in requested);
  }

  /** No names selects nothing, and `STOP_ALL` in any case selects every spec unchanged. */
  lemma FilterEdgeCases(specs: seq<VmSpec>, v: PyValue)
    ensures FilterResult(specs, NamesScalar(PyNone)) == []
    ensures FilterResult(specs, NamesList([])) == []
    ensures !v.PyNone? && Strip(PyStrOf(v)) == [] ==> FilterResult(specs, NamesScalar(v)) == []
    ensures !v.PyNone? && Upper(Strip(PyStrOf(v))) == StopAllWord ==> FilterResult(specs, NamesScalar(v)) == specs
  {
  }

  /** Otherwise a spec is kept exactly when its non-empty name is one of the requested names. */
  lemma FilterSelectsByName(specs: seq<VmSpec>, input: NamesInput, x: VmSpec)
    requires ParseNamesInput(input) != [] && ParseNamesInput(input) != [StopAllToken]
    ensures x in FilterResult(specs, input) <==> x in specs && SpecName(x) != "" && SpecName(x) in ParseNamesInput(input)
  {
    SelectedMembership(specs, (set n | n in ParseNamesInput(input)), x);
  }

  // ---------------------------------------------------------------------------
  // The VMSS hostname
  // ---------------------------------------------------------------------------

  const LinuxOsType: string := "linux"
  const DefaultOsType: string := "Windows"
  const HostnamePrefix: string := "vm"
  const LinuxMaxLength: nat := 63
  const WindowsMaxLength: nat := 9

  /** `re.sub(r"[^A-Za-z0-9]", "", s)` */
  function KeepAlnum(s: string): (r: string)
    ensures |r| <= |s|
    ensures forall i :: 0 <= i < |r| ==> IsAlnum(r[i])
  {
    if s == [] then [] else (if IsAlnum(s[0]) then [s[0]] else []) + KeepAlnum(s[1..])
  }

  /** One character is kept exactly when it is a letter or a digit. */
  lemma KeepAlnumSingle(c: char)
    ensures KeepAlnum([c]) == if IsAlnum(c) then [c] else []
  {
    assert [c][1..] == [];
  }

  /** Filtering works character by character: a concatenation gives the concatenated results. */
  lemma {:induction false} KeepAlnumAppend(a: string, b: string)
    ensures KeepAlnum(a + b) == KeepAlnum(a) + KeepAlnum(b)
  {
    if a != [] {
      assert (a + b)[0] == a[0];
      assert (a + b)[1..] == a[1..] + b;
      KeepAlnumAppend(a[1..], b);
    } else {
      assert a + b == b;
    }
  }

  /** `str(os_disk_os_type or "Windows").strip().lower()` */
  function OsTypeName(osType: PyValue): string {
    Lower(Strip(if Truthy(osType) then PyStrOf(osType) else DefaultOsType))
  }

  /** The length limit for an OS type: 63 for Linux, 9 for anything else. */
  function MaxHostnameLength(osType: PyValue): (n: nat)
    ensures n == LinuxMaxLength <==> OsTypeName(osType) == LinuxOsType
    ensures n == WindowsMaxLength <==> OsTypeName(osType) != LinuxOsType
  {
    if OsTypeName(osType) == LinuxOsType then LinuxMaxLength else WindowsMaxLength
  }

  /** The default OS type has no surrounding whitespace, so its normalised name keeps its seven characters. */
  lemma DefaultOsTypeLength()
    ensures |Lower(Strip(DefaultOsType))| == 7
  {
    assert DefaultOsType[0] == 'W' && DefaultOsType[6] == 's';
    StripNoop(DefaultOsType);
  }

  /** A seven-character name is not `linux`. */
  lemma SevenNotLinux(name: string)
    requires |name| == 7
    ensures name != LinuxOsType
  {
  }

  /** Without an OS type the default, Windows, gets the 9-character limit. */
  lemma DefaultOsTypeIsWindows(osType: PyValue)
    requires !Truthy(osType)
    ensures MaxHostnameLength(osType) == WindowsMaxLength
  {
    assert OsTypeName(osType) == Lower(Strip(DefaultOsType));
    DefaultOsTypeLength();
    SevenNotLinux(OsTypeName(osType));
  }

  /** `str(target_vm_name or '').strip()` */
  function HostnameSource(target: PyValue): string {
    Strip(if Truthy(target) then PyStrOf(target) else "")
  }

  /** The normalised hostname before truncation keeps the `vm` prefix and is lower-case alphanumeric. */
  lemma NormalizedHostname(stripped: string)
    ensures var normalized := Lower(KeepAlnum(HostnamePrefix + stripped));
      && HostnamePrefix <= normalized
      && forall i :: 0 <= i < |normalized| ==> IsLower(normalized[i]) || IsDigit(normalized[i])
  {
    var name := HostnamePrefix + stripped;
    assert name[1..] == "m" + stripped;
    assert ("m" + stripped)[1..] == stripped;
    assert KeepAlnum(name) == HostnamePrefix + KeepAlnum(stripped);
    var normalized := Lower(KeepAlnum(name));
    assert normalized[..2] == HostnamePrefix;
  }

  /** `s[:n]` */
  function Truncate(s: string, n: nat): (r: string)
    ensures |r| <= n && r <= s
    ensures |s| <= n ==> r == s
    ensures |s| > n ==> |r| == n
  {
    if |s| <= n then s else s[..n]
  }

  /** Truncating a lower-case alphanumeric string that starts with `vm` to at least two characters keeps both. */
  lemma TruncateKeepsPrefix(s: string, n: nat)
    requires HostnamePrefix <= s && n >= 2
    requires forall i :: 0 <= i < |s| ==> IsLower(s[i]) || IsDigit(s[i])
    ensures HostnamePrefix <= Truncate(s, n)
    ensures forall i :: 0 <= i < |Truncate(s, n)| ==> IsLower(Truncate(s, n)[i]) || IsDigit(Truncate(s, n)[i])
  {
    var r := Truncate(s, n);
    assert r[..2] == s[..2];
  }

  /** `vm` followed by `stripped`, reduced to lower-case letters and digits and cut to `maxLen` characters. */
  function ShortHostname(stripped: string, maxLen: nat): (r: string)
    requires maxLen >= 2
    ensures HostnamePrefix <= r
    ensures forall i :: 0 <= i < |r| ==> IsLower(r[i]) || IsDigit(r[i])
    ensures |r| <= maxLen
    ensures r <= Lower(KeepAlnum(HostnamePrefix + stripped))
    ensures var n := |Lower(KeepAlnum(HostnamePrefix + stripped))|; |r| == if n <= maxLen then n else maxLen
  {
    var normalized := Lower(KeepAlnum(HostnamePrefix + stripped));
    NormalizedHostname(stripped);
    TruncateKeepsPrefix(normalized, maxLen);
    Truncate(normalized, maxLen)
  }

  /** `compute_vmss_short_hostname` */
  function ComputeVmssShortHostname(target: PyValue, osType: PyValue): (r: string)
    ensures HostnamePrefix <= r
    ensures forall i :: 0 <= i < |r| ==> IsLower(r[i]) || IsDigit(r[i])
    ensures |r| <= MaxHostnameLength(osType)
    ensures r <= Lower(KeepAlnum(HostnamePrefix + HostnameSource(target)))
    ensures var n := |Lower(KeepAlnum(HostnamePrefix + HostnameSource(target)))|;
            |r| == if n <= MaxHostnameLength(osType) then n else MaxHostnameLength(osType)
  {
    var m := MaxHostnameLength(osType);
    assert m == LinuxMaxLength || m == WindowsMaxLength;
    ShortHostname(HostnameSource(target), m)
  }
}
