/**
 * The header-name case normaliser of the client (`normalizeHeader`): split the
 * name on `-`, upper-case the first character of every segment and lower-case
 * the rest, join the segments again with `-`. Case mapping is ASCII only.
 */
module HeaderCase {

  /** ASCII `toUpperCase` of one character. */
  function ToUpper(c: char): (u: char)
    ensures !('a' <= u <= 'z')
    ensures 'a' <= c <= 'z' || u == c
  {
    if 'a' <= c <= 'z' then (c as int - 32) as char else c
  }

  /** ASCII `toLowerCase` of one character. */
  function ToLower(c: char): (l: char)
    ensures !('A' <= l <= 'Z')
    ensures 'A' <= c <= 'Z' || l == c
  {
    if 'A' <= c <= 'Z' then (c as int + 32) as char else c
  }

  function LowerAll(s: string): (r: string)
    ensures |r| == |s|
    ensures forall i :: 0 <= i < |s| ==> r[i] == ToLower(s[i])
  {
    seq(|s|, i requires 0 <= i < |s| => ToLower(s[i]))
  }

  /** `text.charAt(0).toUpperCase() + text.substr(1).toLowerCase()` for one segment. */
  function Capitalize(text: string): (r: string)
    ensures |r| == |text|
    ensures '-' !in text ==> '-' !in r
  {
    if text == "" then "" else [ToUpper(text[0])] + LowerAll(text[1..])
  }

  /** `s.split('-')`: the segments between dashes; the empty string gives one empty segment. */
  function Split(s: string): (segs: seq<string>)
    ensures |segs| >= 1
    ensures forall j :: 0 <= j < |segs| ==> '-' !in segs[j]
  {
    if s == "" then [""]
    else if s[0] == '-' then [""] + Split(s[1..])
    else PrependToFirst(s[0], Split(s[1..]))
  }

  /** Puts `c` in front of the first segment. */
  function PrependToFirst(c: char, segs: seq<string>): (r: seq<string>)
    requires |segs| >= 1
    ensures |r| == |segs|
    ensures c != '-' && (forall j :: 0 <= j < |segs| ==> '-' !in segs[j]) ==>
      forall j :: 0 <= j < |r| ==> '-' !in r[j]
  {
    [[c] + segs[0]] + segs[1..]
  }

  /** `segs.join('-')`. */
  function Join(segs: seq<string>): string
    requires |segs| >= 1
  {
    if |segs| == 1 then segs[0] else segs[0] + "-" + Join(segs[1..])
  }

  function CapitalizeAll(segs: seq<string>): (r: seq<string>)
    ensures |r| == |segs|
    ensures forall j :: 0 <= j < |segs| ==> r[j] == Capitalize(segs[j])
  {
    seq(|segs|, j requires 0 <= j < |segs| => Capitalize(segs[j]))
  }

  /** `normalizeHeader`, as the source computes it: split, map, join. */
  function NormalizeHeader(header: string): string
  {
    Join(CapitalizeAll(Split(header)))
  }

  /**
   * Reference definition, one character at a time: a dash stays a dash and
   * starts a new segment; the first character of a segment is upper-cased,
   * every other character lower-cased.
   */
  function Recase(s: string, atStart: bool): (r: string)
    ensures |r| == |s|
  {
    if s == "" then ""
    else if s[0] == '-' then "-" + Recase(s[1..], true)
    else [if atStart then ToUpper(s[0]) else ToLower(s[0])] + Recase(s[1..], false)
  }

  /** The character a normalised header name has at position `i`. */
  function CaseAt(name: string, i: nat): char
    requires i < |name|
  {
    if name[i] == '-' then '-'
    else if i == 0 || name[i - 1] == '-' then ToUpper(name[i])
    else ToLower(name[i])
  }

  /** Number of dashes in `s`. */
  function Dashes(s: string): nat
  {
    if s == "" then 0 else (if s[0] == '-' then 1 else 0) + Dashes(s[1..])
  }

  // ---------------------------------------------------------------------------
  // Split and Join

  lemma {:induction false} SplitCount(s: string)
    ensures |Split(s)| == Dashes(s) + 1
  {
    if s != "" { SplitCount(s[1..]); }
  }

  lemma {:induction false} JoinSplit(s: string)
    ensures Join(Split(s)) == s
  {
    if s == "" {
    } else if s[0] == '-' {
      JoinSplit(s[1..]);
      assert ([""] + Split(s[1..]))[1..] == Split(s[1..]);
    } else {
      var rest := Split(s[1..]);
      JoinSplit(s[1..]);
      JoinConsChar(s[0], rest[0], rest[1..]);
      assert [rest[0]] + rest[1..] == rest;
      assert [s[0]] + s[1..] == s;
    }
  }

  lemma JoinConsChar(c: char, x: string, t: seq<string>)
    ensures Join([[c] + x] + t) == [c] + Join([x] + t)
  {
    if t != [] {
      assert ([[c] + x] + t)[1..] == t;
      assert ([x] + t)[1..] == t;
    }
  }

  lemma {:induction false} SplitDashFree(x: string)
    requires '-' !in x
    ensures Split(x) == [x]
  {
    if x != "" {
      SplitDashFree(x[1..]);
      assert [x[0]] + x[1..] == x;
    }
  }

  lemma {:induction false} SplitAfterSegment(x: string, y: string)
    requires '-' !in x
    ensures Split(x + "-" + y) == [x] + Split(y)
  {
    if x == "" {
      assert x + "-" + y == "-" + y;
      assert ("-" + y)[1..] == y;
    } else {
      var s := x + "-" + y;
      assert s[0] == x[0];
      assert s[1..] == x[1..] + "-" + y;
      SplitAfterSegment(x[1..], y);
      assert [x[0]] + x[1..] == x;
    }
  }

  /** Splitting undoes joining, for segments that hold no dash. */
  lemma {:induction false} SplitJoin(segs: seq<string>)
    requires |segs| >= 1
    requires forall j :: 0 <= j < |segs| ==> '-' !in segs[j]
    ensures Split(Join(segs)) == segs
  {
    if |segs| == 1 {
      SplitDashFree(segs[0]);
    } else {
      SplitJoin(segs[1..]);
      SplitAfterSegment(segs[0], Join(segs[1..]));
      assert [segs[0]] + segs[1..] == segs;
    }
  }

  // ---------------------------------------------------------------------------
  // The source's split/map/join against the reference definition

  function HeadCase(seg: string, atStart: bool): string
  {
    if atStart then Capitalize(seg) else LowerAll(seg)
  }

  lemma HeadCaseCons(c: char, x: string, atStart: bool)
    ensures HeadCase([c] + x, atStart) == [if atStart then ToUpper(c) else ToLower(c)] + LowerAll(x)
  {
    assert ([c] + x)[1..] == x;
    if !atStart {
      assert LowerAll([c] + x) == [ToLower(c)] + LowerAll(x);
    }
  }

  lemma RecaseEmpty(atStart: bool)
    ensures Recase("", atStart) == Join([HeadCase(Split("")[0], atStart)] + CapitalizeAll(Split("")[1..]))
  {
    assert HeadCase("", atStart) == "";
    assert [HeadCase("", atStart)] + CapitalizeAll([]) == [""];
  }

  lemma RecaseDash(s: string, atStart: bool)
    requires s != "" && s[0] == '-'
    requires var t := Split(s[1..]);
      Recase(s[1..], true) == Join([HeadCase(t[0], true)] + CapitalizeAll(t[1..]))
    ensures var segs := Split(s);
      Recase(s, atStart) == Join([HeadCase(segs[0], atStart)] + CapitalizeAll(segs[1..]))
  {
    var t := Split(s[1..]);
    var caps := CapitalizeAll(t);
    assert Split(s) == [""] + t;
    assert Split(s)[1..] == t;
    assert HeadCase("", atStart) == "";
    assert caps == [HeadCase(t[0], true)] + CapitalizeAll(t[1..]);
    assert ([""] + caps)[1..] == caps;
    assert Join([""] + caps) == "-" + Join(caps);
  }

  lemma RecaseLetter(s: string, atStart: bool)
    requires s != "" && s[0] != '-'
    requires var t := Split(s[1..]);
      Recase(s[1..], false) == Join([HeadCase(t[0], false)] + CapitalizeAll(t[1..]))
    ensures var segs := Split(s);
      Recase(s, atStart) == Join([HeadCase(segs[0], atStart)] + CapitalizeAll(segs[1..]))
  {
    var t := Split(s[1..]);
    var c := if atStart then ToUpper(s[0]) else ToLower(s[0]);
    assert Split(s) == [[s[0]] + t[0]] + t[1..];
    HeadCaseCons(s[0], t[0], atStart);
    JoinConsChar(c, LowerAll(t[0]), CapitalizeAll(t[1..]));
  }

  lemma {:induction false} RecaseIsSplitMapJoin(s: string, atStart: bool)
    ensures var segs := Split(s);
      Recase(s, atStart) == Join([HeadCase(segs[0], atStart)] + CapitalizeAll(segs[1..]))
    decreases |s|
  {
    if s == "" {
      RecaseEmpty(atStart);
    } else if s[0] == '-' {
      RecaseIsSplitMapJoin(s[1..], true);
      RecaseDash(s, atStart);
    } else {
      RecaseIsSplitMapJoin(s[1..], false);
      RecaseLetter(s, atStart);
    }
  }

  lemma NormalizeHeaderIsRecase(header: string)
    ensures NormalizeHeader(header) == Recase(header, true)
  {
    var segs := Split(header);
    RecaseIsSplitMapJoin(header, true);
    assert CapitalizeAll(segs) == [HeadCase(segs[0], true)] + CapitalizeAll(segs[1..]);
  }

  lemma {:induction false} RecaseAt(s: string, atStart: bool, i: nat)
    requires i < |s|
    ensures Recase(s, atStart)[i] ==
      if s[i] == '-' then '-'
      else if (if i == 0 then atStart else s[i - 1] == '-') then ToUpper(s[i])
      else ToLower(s[i])
  {
    if i > 0 {
      RecaseAt(s[1..], s[0] == '-', i - 1);
    }
  }

  // ---------------------------------------------------------------------------
  // Properties of normalizeHeader

  /** Each character of a normalised name: dashes kept, segment starts upper-cased, the rest lower-cased. */
  lemma NormalizeHeaderChars(name: string)
    ensures |NormalizeHeader(name)| == |name|
    ensures forall i :: 0 <= i < |name| ==> NormalizeHeader(name)[i] == CaseAt(name, i)
  {
    NormalizeHeaderIsRecase(name);
    forall i | 0 <= i < |name| ensures NormalizeHeader(name)[i] == CaseAt(name, i) {
      RecaseAt(name, true, i);
    }
  }

  /** Normalising keeps the number of `-`-separated segments and capitalises each one. */
  lemma NormalizeHeaderSegments(name: string)
    ensures |Split(NormalizeHeader(name))| == |Split(name)|
    ensures forall j :: 0 <= j < |Split(name)| ==> Split(NormalizeHeader(name))[j] == Capitalize(Split(name)[j])
  {
    var caps := CapitalizeAll(Split(name));
    SplitJoin(caps);
  }

  /** Normalising an already normalised name changes nothing. */
  lemma NormalizeHeaderIdempotent(name: string)
    ensures NormalizeHeader(NormalizeHeader(name)) == NormalizeHeader(name)
  {
    var r := NormalizeHeader(name);
    NormalizeHeaderChars(name);
    NormalizeHeaderChars(r);
    forall i | 0 <= i < |r| ensures NormalizeHeader(r)[i] == r[i] {
      assert (r[i] == '-') == (name[i] == '-');
      if i > 0 {
        assert (r[i - 1] == '-') == (name[i - 1] == '-');
      }
    }
  }

  /** Normalising joined dash-free segments joins their capitalised forms. */
  lemma NormalizeJoined(segs: seq<string>, caps: seq<string>)
    requires |segs| >= 1
    requires forall j :: 0 <= j < |segs| ==> '-' !in segs[j]
    requires caps == CapitalizeAll(segs)
    ensures NormalizeHeader(Join(segs)) == Join(caps)
  {
    SplitJoin(segs);
  }

  /** A segment whose tail is already lower case gets only its first character upper-cased. */
  lemma CapitalizeLowerTail(text: string, r: string)
    requires text != "" && LowerAll(text[1..]) == text[1..]
    requires r == [ToUpper(text[0])] + text[1..]
    ensures Capitalize(text) == r
  {
  }

  lemma AccessTokenSegments(segs: seq<string>, caps: seq<string>)
    requires segs == ["x", "medusa", "access", "token"]
    requires caps == ["X", "Medusa", "Access", "Token"]
    ensures CapitalizeAll(segs) == caps
  {
    assert Capitalize(segs[0]) == caps[0];
    CapitalizeLowerTail(segs[1], caps[1]);
    CapitalizeLowerTail(segs[2], caps[2]);
    CapitalizeLowerTail(segs[3], caps[3]);
  }

  /** `join('-')` of four segments, given the joins of the last two and the last three. */
  lemma JoinFour(segs: seq<string>, last2: string, last3: string, joined: string)
    requires |segs| == 4
    requires last2 == segs[2] + "-" + segs[3]
    requires last3 == segs[1] + "-" + last2
    requires joined == segs[0] + "-" + last3
    ensures Join(segs) == joined
  {
    var t1, t2, t3 := segs[1..], segs[2..], segs[3..];
    assert t1[1..] == t2 && t2[1..] == t3;
    assert Join(t3) == segs[3];
    assert Join(t2) == last2;
    assert Join(t1) == last3;
  }

  /** The segments of `x-medusa-access-token`, and their capitalised forms, joined again. */
  lemma AccessTokenJoins(segs: seq<string>, caps: seq<string>)
    requires segs == ["x", "medusa", "access", "token"]
    requires caps == ["X", "Medusa", "Access", "Token"]
    ensures Join(segs) == "x-medusa-access-token"
    ensures Join(caps) == "X-Medusa-Access-Token"
  {
    JoinFour(segs, "access-token", "medusa-access-token", "x-medusa-access-token");
    JoinFour(caps, "Access-Token", "Medusa-Access-Token", "X-Medusa-Access-Token");
  }

  lemma AccessTokenHeaderExample()
    ensures NormalizeHeader("x-medusa-access-token") == "X-Medusa-Access-Token"
  {
    var segs := ["x", "medusa", "access", "token"];
    var caps := ["X", "Medusa", "Access", "Token"];
    AccessTokenSegments(segs, caps);
    AccessTokenJoins(segs, caps);
    NormalizeJoined(segs, caps);
  }

  lemma TimeoutCapitalized(name: string, r: string)
    requires name == "timeout" && r == "Timeout"
    ensures '-' !in name && Capitalize(name) == r
  {
    assert LowerAll("imeout") == "imeout";
  }

  lemma NumberOfRetriesCapitalized(name: string, r: string)
    requires name == "numberOfRetries" && r == "Numberofretries"
    ensures '-' !in name && Capitalize(name) == r
  {
    assert LowerAll("umberOfRetries") == "umberofretries";
  }

  lemma ProtoCapitalized(name: string, r: string)
    requires name == "__proto__" && r == "__proto__"
    ensures '-' !in name && Capitalize(name) == r
  {
    assert LowerAll("_proto__") == "_proto__";
  }

  lemma UpperProtoCapitalized(name: string, r: string)
    requires name == "__PROTO__" && r == "__proto__"
    ensures '-' !in name && Capitalize(name) == r
  {
    assert LowerAll("_PROTO__") == "_proto__";
  }

  /** `__proto__` normalises to itself, and so does its upper-case spelling. */
  lemma ProtoNamesExample()
    ensures NormalizeHeader("__proto__") == "__proto__"
    ensures NormalizeHeader("__PROTO__") == "__proto__"
  {
    ProtoCapitalized("__proto__", "__proto__");
    assert CapitalizeAll(["__proto__"]) == ["__proto__"];
    NormalizeJoined(["__proto__"], ["__proto__"]);
    UpperProtoCapitalized("__PROTO__", "__proto__");
    assert CapitalizeAll(["__PROTO__"]) == ["__proto__"];
    NormalizeJoined(["__PROTO__"], ["__proto__"]);
  }

  /** The keys of the client's request options become these header names. */
  lemma OptionKeysExample()
    ensures NormalizeHeader("timeout") == "Timeout"
    ensures NormalizeHeader("numberOfRetries") == "Numberofretries"
  {
    TimeoutCapitalized("timeout", "Timeout");
    assert CapitalizeAll(["timeout"]) == ["Timeout"];
    NormalizeJoined(["timeout"], ["Timeout"]);
    NumberOfRetriesCapitalized("numberOfRetries", "Numberofretries");
    assert CapitalizeAll(["numberOfRetries"]) == ["Numberofretries"];
    NormalizeJoined(["numberOfRetries"], ["Numberofretries"]);
  }
}
