/** Loading the survey: the personal and the societal utility files, one
    respondent per id (DataReader.cs). */
module DataReading {
  import opened Wrappers
  import opened Respondents

  // ---------------------------------------------------------------------------
  // Text

  /** char.IsWhiteSpace: the .NET white-space characters. */
  predicate IsWhiteSpace(c: char)
  {
    ('\t' <= c <= '\r') || c == ' ' || c == '\U{85}' || c == '\U{A0}' || c == '\U{1680}' ||
    ('\U{2000}' <= c <= '\U{200A}') || c == '\U{2028}' || c == '\U{2029}' ||
    c == '\U{202F}' || c == '\U{205F}' || c == '\U{3000}'
  }

  /** string.IsNullOrWhiteSpace on a line that is never null. */
  predicate IsBlank(line: string)
  {
    forall k :: 0 <= k < |line| ==> IsWhiteSpace(line[k])
  }

  /** string.Split on one separator: the pieces between separators, an empty
      piece wherever two separators meet or one starts or ends the string. */
  function Split(s: string, sep: char): (parts: seq<string>)
    ensures |parts| >= 1
    ensures forall k :: 0 <= k < |parts| ==> sep !in parts[k]
  {
    if s == [] then [[]]
    else
      var rest := Split(s[1..], sep);
      if s[0] == sep then [[]] + rest else [[s[0]] + rest[0]] + rest[1..]
  }

  /** The pieces put back together with the separator between them. */
  function Join(parts: seq<string>, sep: char): string
    requires |parts| >= 1
  {
    if |parts| == 1 then parts[0] else parts[0] + [sep] + Join(parts[1..], sep)
  }

  /** Splitting loses nothing: joining the pieces gives the string back. */
  lemma {:induction false} JoinSplit(s: string, sep: char)
    ensures Join(Split(s, sep), sep) == s
  {
    if s != [] {
      var rest := Split(s[1..], sep);
      JoinSplit(s[1..], sep);
      if s[0] == sep {
        assert Split(s, sep)[1..] == rest;
      } else {
        var parts := Split(s, sep);
        if |rest| == 1 {
          assert parts == [[s[0]] + rest[0]];
        } else {
          assert parts[1..] == rest[1..];
          assert Join(rest, sep) == rest[0] + [sep] + Join(rest[1..], sep);
        }
      }
    }
  }

  /** A string without the separator is one piece. */
  lemma {:induction false} SplitWithout(a: string, sep: char)
    requires sep !in a
    ensures Split(a, sep) == [a]
  {
    if a != [] {
      SplitWithout(a[1..], sep);
      assert [a[0]] + a[1..] == a;
    }
  }

  /** A separator after a piece without one cuts exactly there. */
  lemma {:induction false} SplitAfter(a: string, b: string, sep: char)
    requires sep !in a
    ensures Split(a + [sep] + b, sep) == [a] + Split(b, sep)
  {
    if a == [] {
      assert a + [sep] + b == [sep] + b;
      assert ([sep] + b)[1..] == b;
    } else {
      var s := a + [sep] + b;
      assert s[1..] == a[1..] + [sep] + b;
      SplitAfter(a[1..], b, sep);
      assert [a[0]] + a[1..] == a;
    }
  }

  /** Pieces without the separator come back from their join unchanged. */
  lemma {:induction false} SplitJoin(parts: seq<string>, sep: char)
    requires |parts| >= 1
    requires forall k :: 0 <= k < |parts| ==> sep !in parts[k]
    ensures Split(Join(parts, sep), sep) == parts
  {
    if |parts| == 1 {
      SplitWithout(parts[0], sep);
    } else {
      SplitJoin(parts[1..], sep);
      SplitAfter(parts[0], Join(parts[1..], sep), sep);
      assert [parts[0]] + parts[1..] == parts;
    }
  }

  // ---------------------------------------------------------------------------
  // Rows

  /** The data lines of a file: every line after the first. */
  function DataLines(text: string): (rows: seq<string>)
  {
    Split(text, '\n')[1..]
  }

  /** The first line is a header and is never read as data. */
  lemma HeaderSkipped(header: string, body: string)
    requires '\n' !in header
    ensures DataLines(header + "\n" + body) == Split(body, '\n')
  {
    SplitAfter(header, body, '\n');
  }

  /** What the loops make of one line: it is skipped (blank, or a first
      column that is not an integer), or it is keyed by that integer. */
  datatype Line = Skipped | Keyed(id: int, cols: seq<string>)

  function Classify(line: string, parseInt: string -> Option<int>): (l: Line)
  {
    if IsBlank(line) then Skipped
    else
      var cols := Split(line, ',');
      match parseInt(cols[0])
      case None => Skipped
      case Some(id) => Keyed(id, cols)
  }

  /** The six checkpoints of a curve from columns 1 to 6, or None when a
      column is missing (an index out of range) or is not a number
      (float.Parse throws). */
  function Curve(cols: seq<string>, parseReal: string -> Option<real>): (c: Option<seq<real>>)
  {
    if |cols| > CurveLength && forall k :: 1 <= k <= CurveLength ==> parseReal(cols[k]).Some? then
      Some(seq(CurveLength, k requires 0 <= k < CurveLength => parseReal(cols[k + 1]).value))
    else None
  }

  /** A curve, when there is one, has six checkpoints, each the parse of its
      own column. */
  lemma CurveShape(cols: seq<string>, parseReal: string -> Option<real>)
    requires Curve(cols, parseReal).Some?
    ensures |Curve(cols, parseReal).value| == CurveLength && |cols| > CurveLength
    ensures forall k :: 0 <= k < CurveLength ==> parseReal(cols[k + 1]) == Some(Curve(cols, parseReal).value[k])
  {
  }

  /** Curves by respondent id. */
  type Table = map<int, seq<real>>

  /** The table after reading `rows` into `t0`, line by line: keyed lines
      set their id's curve (only ids already present when `knownOnly`), and
      the first line whose curve cannot be parsed makes the whole read fail. */
  function Fold(rows: seq<string>, parseInt: string -> Option<int>, parseReal: string -> Option<real>,
                t0: Table, knownOnly: bool): (r: Option<Table>)
  {
    if rows == [] then Some(t0)
    else ReadLine(Fold(rows[..|rows| - 1], parseInt, parseReal, t0, knownOnly), rows[|rows| - 1], parseInt, parseReal, knownOnly)
  }

  /** One more line read into the table so far. */
  function ReadLine(acc: Option<Table>, line: string, parseInt: string -> Option<int>,
                    parseReal: string -> Option<real>, knownOnly: bool): (r: Option<Table>)
  {
    match acc
    case None => None
    case Some(t) =>
      match Classify(line, parseInt)
      case Skipped => Some(t)
      case Keyed(id, cols) =>
        if knownOnly && id !in t then Some(t)
        else
          match Curve(cols, parseReal)
          case None => None
          case Some(c) => Some(t[id := c])
  }

  /** A line the read ignores: skipped, or (when only known ids count) keyed
      by an id that is not known. */
  predicate Inert(line: string, parseInt: string -> Option<int>, t0: Table, knownOnly: bool)
  {
    Classify(line, parseInt).Skipped? || (knownOnly && Classify(line, parseInt).id !in t0)
  }

  /** A row that is keyed by `id`. */
  predicate KeyedBy(rows: seq<string>, parseInt: string -> Option<int>, i: int, id: int)
  {
    0 <= i < |rows| && Classify(rows[i], parseInt).Keyed? && Classify(rows[i], parseInt).id == id
  }

  /** Reading one more line: a skipped line (or an unknown id when only known
      ids count) changes nothing, a keyed line sets its id's curve or fails. */
  lemma FoldNext(rows: seq<string>, line: string, parseInt: string -> Option<int>, parseReal: string -> Option<real>,
                 t0: Table, knownOnly: bool, t: Table)
    requires Fold(rows, parseInt, parseReal, t0, knownOnly) == Some(t)
    ensures Classify(line, parseInt).Skipped? ==> Fold(rows + [line], parseInt, parseReal, t0, knownOnly) == Some(t)
    ensures Classify(line, parseInt).Keyed? && knownOnly && Classify(line, parseInt).id !in t ==>
      Fold(rows + [line], parseInt, parseReal, t0, knownOnly) == Some(t)
    ensures Classify(line, parseInt).Keyed? && (!knownOnly || Classify(line, parseInt).id in t) ==>
      Fold(rows + [line], parseInt, parseReal, t0, knownOnly) ==
        (match Curve(Classify(line, parseInt).cols, parseReal)
         case None => None
         case Some(c) => Some(t[Classify(line, parseInt).id := c]))
  {
    assert (rows + [line])[..|rows + [line]| - 1] == rows;
  }

  /** Once a line has failed the rest of the file cannot repair it. */
  lemma {:induction false} FailureIsFinal(rows: seq<string>, more: seq<string>, parseInt: string -> Option<int>,
                                          parseReal: string -> Option<real>, t0: Table, knownOnly: bool)
    requires Fold(rows, parseInt, parseReal, t0, knownOnly).None?
    ensures Fold(rows + more, parseInt, parseReal, t0, knownOnly).None?
  {
    if more != [] {
      var all := rows + more;
      assert all[..|all| - 1] == rows + more[..|more| - 1];
      FailureIsFinal(rows, more[..|more| - 1], parseInt, parseReal, t0, knownOnly);
    } else {
      assert rows + more == rows;
    }
  }

  /** A failure at line i of a file is the failure of the whole file. */
  lemma LaterLines(lines: seq<string>, i: nat, parseInt: string -> Option<int>, parseReal: string -> Option<real>,
                   t0: Table, knownOnly: bool)
    requires 1 <= i < |lines| && Fold(lines[1..i + 1], parseInt, parseReal, t0, knownOnly).None?
    ensures Fold(lines[1..], parseInt, parseReal, t0, knownOnly).None?
  {
    FailureIsFinal(lines[1..i + 1], lines[i + 1..], parseInt, parseReal, t0, knownOnly);
    assert lines[1..] == lines[1..i + 1] + lines[i + 1..];
  }

  /** The ids of the result: those of `t0`, and (unless only known ids
      count) the ids of every keyed row. */
  lemma {:induction false} FoldKeys(rows: seq<string>, parseInt: string -> Option<int>, parseReal: string -> Option<real>,
                                    t0: Table, knownOnly: bool)
    requires Fold(rows, parseInt, parseReal, t0, knownOnly).Some?
    ensures knownOnly ==> Fold(rows, parseInt, parseReal, t0, knownOnly).value.Keys == t0.Keys
    ensures !knownOnly ==> forall id :: id in Fold(rows, parseInt, parseReal, t0, knownOnly).value <==>
      id in t0 || exists i :: KeyedBy(rows, parseInt, i, id)
  {
    if rows != [] {
      var front := rows[..|rows| - 1];
      FoldKeys(front, parseInt, parseReal, t0, knownOnly);
      if !knownOnly {
        var t := Fold(rows, parseInt, parseReal, t0, knownOnly).value;
        var tf := Fold(front, parseInt, parseReal, t0, knownOnly).value;
        var last := |rows| - 1;
        forall id ensures id in t <==> id in t0 || exists i :: KeyedBy(rows, parseInt, i, id) {
          assert id in t <==> id in tf || KeyedBy(rows, parseInt, last, id);
          if exists i :: KeyedBy(rows, parseInt, i, id) {
            var i :| KeyedBy(rows, parseInt, i, id);
            if i < last {
              assert KeyedBy(front, parseInt, i, id);
            }
          }
          if exists i :: KeyedBy(front, parseInt, i, id) {
            var i :| KeyedBy(front, parseInt, i, id);
            assert KeyedBy(rows, parseInt, i, id);
          }
        }
      }
    }
  }

  /** An ignored line may be dropped from anywhere in the file. */
  lemma {:induction false} InertLineIgnored(pre: seq<string>, line: string, post: seq<string>,
                                            parseInt: string -> Option<int>, parseReal: string -> Option<real>,
                                            t0: Table, knownOnly: bool)
    requires Inert(line, parseInt, t0, knownOnly)
    ensures Fold(pre + [line] + post, parseInt, parseReal, t0, knownOnly) == Fold(pre + post, parseInt, parseReal, t0, knownOnly)
  {
    if post == [] {
      assert (pre + [line] + post)[..|pre| + 1 - 1] == pre;
      assert pre + post == pre;
      if knownOnly && Fold(pre, parseInt, parseReal, t0, knownOnly).Some? {
        FoldKeys(pre, parseInt, parseReal, t0, knownOnly);
      }
    } else {
      var with := pre + [line] + post;
      var without := pre + post;
      var front := post[..|post| - 1];
      assert with[..|with| - 1] == pre + [line] + front;
      assert without[..|without| - 1] == pre + front;
      assert with[|with| - 1] == without[|without| - 1];
      InertLineIgnored(pre, line, front, parseInt, parseReal, t0, knownOnly);
    }
  }

  /** An entry comes from the last row keyed by its id: a later row for the
      same id replaces an earlier one. */
  lemma {:induction false} LastRowWins(rows: seq<string>, parseInt: string -> Option<int>, parseReal: string -> Option<real>,
                                       t0: Table, knownOnly: bool, i: nat, id: int)
    requires Fold(rows, parseInt, parseReal, t0, knownOnly).Some?
    requires KeyedBy(rows, parseInt, i, id) && (knownOnly ==> id in t0)
    requires forall j :: i < j < |rows| ==> !KeyedBy(rows, parseInt, j, id)
    ensures Curve(Classify(rows[i], parseInt).cols, parseReal).Some?
    ensures id in Fold(rows, parseInt, parseReal, t0, knownOnly).value
    ensures Fold(rows, parseInt, parseReal, t0, knownOnly).value[id] == Curve(Classify(rows[i], parseInt).cols, parseReal).value
  {
    var front := rows[..|rows| - 1];
    if knownOnly {
      FoldKeys(front, parseInt, parseReal, t0, knownOnly);
    }
    if i < |rows| - 1 {
      assert KeyedBy(front, parseInt, i, id);
      forall j | i < j < |front| ensures !KeyedBy(front, parseInt, j, id) {
        assert !KeyedBy(rows, parseInt, j, id);
      }
      LastRowWins(front, parseInt, parseReal, t0, knownOnly, i, id);
      assert !KeyedBy(rows, parseInt, |rows| - 1, id);
    }
  }

  /** An id no row is keyed by keeps its entry from `t0`. */
  lemma {:induction false} UntouchedKeepsEntry(rows: seq<string>, parseInt: string -> Option<int>, parseReal: string -> Option<real>,
                                               t0: Table, knownOnly: bool, id: int)
    requires Fold(rows, parseInt, parseReal, t0, knownOnly).Some?
    requires id in t0 && forall j :: 0 <= j < |rows| ==> !KeyedBy(rows, parseInt, j, id)
    ensures id in Fold(rows, parseInt, parseReal, t0, knownOnly).value
    ensures Fold(rows, parseInt, parseReal, t0, knownOnly).value[id] == t0[id]
  {
    if rows != [] {
      var front := rows[..|rows| - 1];
      forall j | 0 <= j < |front| ensures !KeyedBy(front, parseInt, j, id) {
        assert !KeyedBy(rows, parseInt, j, id);
      }
      UntouchedKeepsEntry(front, parseInt, parseReal, t0, knownOnly, id);
      assert !KeyedBy(rows, parseInt, |rows| - 1, id);
    }
  }

  // ---------------------------------------------------------------------------
  // The two files

  /** An unset curve: the six zeros a new respondent starts with. */
  const Zeros: seq<real> := [0.0, 0.0, 0.0, 0.0, 0.0, 0.0]

  /** Both curves of every respondent read. */
  datatype Curves = Curves(personal: Table, societal: Table)

  /** What GetRespondents reads: the personal file makes the respondents, the
      societal file then fills in the curves of known ids only. A file that
      is not set is not read; None stands for an exception. */
  function Expected(personalFile: Option<string>, societalFile: Option<string>,
                    parseInt: string -> Option<int>, parseReal: string -> Option<real>): (e: Option<Curves>)
  {
    var p := if personalFile.None? then Some(map[]) else Fold(DataLines(personalFile.value), parseInt, parseReal, map[], false);
    if p.None? then None
    else
      var start := map id | id in p.value :: Zeros;
      var s := if societalFile.None? then Some(start) else Fold(DataLines(societalFile.value), parseInt, parseReal, start, true);
      if s.None? then None else Some(Curves(p.value, s.value))
  }

  /** The respondents are exactly the ids of the personal rows, every
      respondent has both curves, and it keeps the zero societal curve
      unless a societal row names it. */
  lemma ExpectedShape(personalFile: Option<string>, societalFile: Option<string>,
                      parseInt: string -> Option<int>, parseReal: string -> Option<real>)
    requires Expected(personalFile, societalFile, parseInt, parseReal).Some?
    ensures var e := Expected(personalFile, societalFile, parseInt, parseReal).value;
      e.societal.Keys == e.personal.Keys &&
      (personalFile.None? ==> e.personal == map[]) &&
      (personalFile.Some? ==> forall id :: id in e.personal <==>
        exists i :: KeyedBy(DataLines(personalFile.value), parseInt, i, id)) &&
      (societalFile.None? ==> forall id :: id in e.societal ==> e.societal[id] == Zeros)
  {
    var e := Expected(personalFile, societalFile, parseInt, parseReal).value;
    var start := map id | id in e.personal :: Zeros;
    if personalFile.Some? {
      FoldKeys(DataLines(personalFile.value), parseInt, parseReal, map[], false);
    }
    if societalFile.Some? {
      FoldKeys(DataLines(societalFile.value), parseInt, parseReal, start, true);
    }
  }

  // ---------------------------------------------------------------------------
  // GetRespondents

  /** The respondent loaded for `id` with the two curves read for it. */
  ghost predicate Holds(r: Respondent, id: int, personal: seq<real>, societal: seq<real>)
    reads r, r.personalUtilities, r.societalUtilities
  {
    r.Valid() && r.id == id && r.personalUtilities[..] == personal && r.societalUtilities[..] == societal &&
    r.currentLS == 0.0 && r.wealthTier == 0
  }

  /** Different ids hold different respondents, whose curves are different
      arrays. */
  ghost predicate Separate(m: map<int, Respondent>)
  {
    forall a, b :: a in m && b in m && a != b ==>
      m[a] != m[b] && m[a].societalUtilities != m[b].societalUtilities &&
      m[a].societalUtilities != m[b].personalUtilities
  }

  /** Six columns after the id whose parses are the entries of `t` make
      the curve `t`. */
  lemma CurveOfColumns(cols: seq<string>, parseReal: string -> Option<real>, t: seq<real>)
    requires |t| == CurveLength && |cols| > CurveLength
    requires forall j :: 0 <= j < CurveLength ==> parseReal(cols[j + 1]) == Some(t[j])
    ensures Curve(cols, parseReal) == Some(t)
  {
    forall k | 1 <= k <= CurveLength ensures parseReal(cols[k]).Some? {
      assert parseReal(cols[(k - 1) + 1]) == Some(t[k - 1]);
    }
    CurveShape(cols, parseReal);
    assert Curve(cols, parseReal).value == t;
  }

  /** Columns 1 to 6 into `target`, one element at a time; false where the
      source throws. */
  method ParseCurve(cols: seq<string>, parseReal: string -> Option<real>, target: array<real>) returns (good: bool)
    requires target.Length == CurveLength
    modifies target
    ensures good <==> Curve(cols, parseReal).Some?
    ensures good ==> target[..] == Curve(cols, parseReal).value
  {
    for k := 0 to CurveLength
      invariant k == 0 || k < |cols|
      invariant forall j :: 0 <= j < k ==> parseReal(cols[j + 1]) == Some(target[j])
    {
      if k + 1 >= |cols| {
        return false;
      }
      var v := parseReal(cols[k + 1]);
      if v.None? {
        assert !parseReal(cols[k + 1]).Some?;
        return false;
      }
      target[k] := v.value;
    }
    good := true;
    CurveOfColumns(cols, parseReal, target[..]);
  }

  /** A respondent for a personal row: a new one with its id, its personal
      curve read from the columns and everything else at zero. */
  method NewRespondent(id: int, cols: seq<string>, parseReal: string -> Option<real>) returns (good: bool, r: Respondent)
    ensures fresh(r) && fresh(r.personalUtilities) && fresh(r.societalUtilities)
    ensures good <==> Curve(cols, parseReal).Some?
    ensures good ==> Holds(r, id, Curve(cols, parseReal).value, Zeros)
  {
    r := new Respondent(id);
    good := ParseCurve(cols, parseReal, r.personalUtilities);
  }

  /** One line of the personal file: a keyed line makes a new respondent for
      its id (replacing any earlier one); other lines change nothing. */
  method PersonalLine(lines: seq<string>, i: nat, respondents: map<int, Respondent>, ghost t: Table,
                      parseInt: string -> Option<int>, parseReal: string -> Option<real>)
    returns (good: bool, next: map<int, Respondent>, ghost t': Table)
    requires 1 <= i < |lines| && Fold(lines[1..i], parseInt, parseReal, map[], false) == Some(t)
    requires respondents.Keys == t.Keys && Separate(respondents)
    requires forall id :: id in respondents ==> Holds(respondents[id], id, t[id], Zeros)
    ensures !good ==> Fold(lines[1..], parseInt, parseReal, map[], false).None?
    ensures good ==> Fold(lines[1..i + 1], parseInt, parseReal, map[], false) == Some(t')
    ensures good ==> next.Keys == t'.Keys && Separate(next)
    ensures good ==> forall id :: id in next ==> (Holds(next[id], id, t'[id], Zeros) &&
      ((fresh(next[id]) && fresh(next[id].societalUtilities)) || (id in respondents && next[id] == respondents[id])))
  {
    var line := lines[i];
    assert lines[1..i + 1] == lines[1..i] + [line];
    FoldNext(lines[1..i], line, parseInt, parseReal, map[], false, t);
    next, t' := respondents, t;
    good := true;
    if IsBlank(line) {
      return;
    }
    var cols := Split(line, ',');
    match parseInt(cols[0]) {
      case None =>
      case Some(id) =>
        var r;
        good, r := NewRespondent(id, cols, parseReal);
        if !good {
          LaterLines(lines, i, parseInt, parseReal, map[], false);
        } else {
          next := respondents[id := r];
          t' := t[id := r.personalUtilities[..]];
        }
    }
  }

  /** Part 1 of GetRespondents, the personal file: a new respondent for
      every keyed row, the last one for an id replacing earlier ones. */
  method ReadPersonal(text: string, parseInt: string -> Option<int>, parseReal: string -> Option<real>)
    returns (ok: bool, respondents: map<int, Respondent>, ghost t: Table)
    ensures ok <==> Fold(DataLines(text), parseInt, parseReal, map[], false).Some?
    ensures ok ==> Fold(DataLines(text), parseInt, parseReal, map[], false) == Some(t) && respondents.Keys == t.Keys
    ensures ok ==> forall id :: id in respondents ==>
      fresh(respondents[id]) && fresh(respondents[id].societalUtilities) && Holds(respondents[id], id, t[id], Zeros)
    ensures ok ==> Separate(respondents)
  {
    respondents := map[];
    t := map[];
    var lines := Split(text, '\n');
    for i := 1 to |lines|
      invariant Fold(lines[1..i], parseInt, parseReal, map[], false) == Some(t)
      invariant respondents.Keys == t.Keys && Separate(respondents)
      invariant forall id :: id in respondents ==>
        fresh(respondents[id]) && fresh(respondents[id].societalUtilities) && Holds(respondents[id], id, t[id], Zeros)
    {
      var good;
      good, respondents, t := PersonalLine(lines, i, respondents, t, parseInt, parseReal);
      if !good {
        return false, map[], map[];
      }
    }
    assert lines[1..|lines|] == DataLines(text);
    ok := true;
  }

  /** The societal arrays of the respondents read. */
  ghost function SocietalArrays(respondents: map<int, Respondent>): set<array<real>>
  {
    set id | id in respondents :: respondents[id].societalUtilities
  }

  /** One line of the societal file: a keyed line for a known id sets that
      respondent's societal curve; other lines change nothing and are not
      parsed further. */
  method SocietalLine(lines: seq<string>, i: nat, respondents: map<int, Respondent>, ghost start: Table,
                      ghost t: Table, ghost s: Table, parseInt: string -> Option<int>, parseReal: string -> Option<real>)
    returns (good: bool, ghost s': Table)
    requires 1 <= i < |lines| && Fold(lines[1..i], parseInt, parseReal, start, true) == Some(s)
    requires respondents.Keys == t.Keys == s.Keys && Separate(respondents)
    requires forall id :: id in respondents ==> Holds(respondents[id], id, t[id], s[id])
    modifies SocietalArrays(respondents)
    ensures !good ==> Fold(lines[1..], parseInt, parseReal, start, true).None?
    ensures good ==> Fold(lines[1..i + 1], parseInt, parseReal, start, true) == Some(s')
    ensures good ==> s'.Keys == t.Keys && forall id :: id in respondents ==> Holds(respondents[id], id, t[id], s'[id])
  {
    var line := lines[i];
    assert lines[1..i + 1] == lines[1..i] + [line];
    FoldNext(lines[1..i], line, parseInt, parseReal, start, true, s);
    s' := s;
    good := true;
    if IsBlank(line) {
      return;
    }
    var cols := Split(line, ',');
    match parseInt(cols[0]) {
      case None =>
      case Some(id) =>
        if id in respondents {
          var r := respondents[id];
          good := ParseCurve(cols, parseReal, r.societalUtilities);
          if !good {
            LaterLines(lines, i, parseInt, parseReal, start, true);
          } else {
            s' := s[id := r.societalUtilities[..]];
          }
        }
    }
  }

  /** Part 2 of GetRespondents, the societal file: only respondents already
      read are filled in; rows for other ids are passed over unread. */
  method ReadSocietal(respondents: map<int, Respondent>, ghost t: Table, text: string,
                      parseInt: string -> Option<int>, parseReal: string -> Option<real>)
    returns (ok: bool, ghost s: Table)
    requires respondents.Keys == t.Keys && Separate(respondents)
    requires forall id :: id in respondents ==> Holds(respondents[id], id, t[id], Zeros)
    modifies SocietalArrays(respondents)
    ensures ok <==> Fold(DataLines(text), parseInt, parseReal, map id | id in t :: Zeros, true).Some?
    ensures ok ==> Fold(DataLines(text), parseInt, parseReal, map id | id in t :: Zeros, true) == Some(s) && s.Keys == t.Keys
    ensures ok ==> forall id :: id in respondents ==> Holds(respondents[id], id, t[id], s[id])
  {
    ghost var start: Table := map id | id in t :: Zeros;
    s := start;
    var lines := Split(text, '\n');
    for i := 1 to |lines|
      invariant Fold(lines[1..i], parseInt, parseReal, start, true) == Some(s)
      invariant s.Keys == t.Keys
      invariant forall id :: id in respondents ==> Holds(respondents[id], id, t[id], s[id])
    {
      var good;
      good, s := SocietalLine(lines, i, respondents, start, t, s, parseInt, parseReal);
      if !good {
        return false, s;
      }
    }
    assert lines[1..|lines|] == DataLines(text);
    ok := true;
  }

  /** GetRespondents: `ok` is false where the source throws; otherwise one
      new respondent per personal id, with the curves the files give it. */
  method GetRespondents(personalFile: Option<string>, societalFile: Option<string>,
                        parseInt: string -> Option<int>, parseReal: string -> Option<real>)
    returns (ok: bool, respondents: map<int, Respondent>)
    ensures ok <==> Expected(personalFile, societalFile, parseInt, parseReal).Some?
    ensures ok ==> respondents.Keys == Expected(personalFile, societalFile, parseInt, parseReal).value.personal.Keys
    ensures ok ==> forall id :: id in respondents ==>
      (fresh(respondents[id]) && id in Expected(personalFile, societalFile, parseInt, parseReal).value.societal &&
       Holds(respondents[id], id, Expected(personalFile, societalFile, parseInt, parseReal).value.personal[id],
             Expected(personalFile, societalFile, parseInt, parseReal).value.societal[id]))
    ensures ok ==> Separate(respondents)
  {
    respondents := map[];
    ghost var t: Table := map[];
    if personalFile.Some? {
      var good;
      good, respondents, t := ReadPersonal(personalFile.value, parseInt, parseReal);
      if !good {
        return false, map[];
      }
    }
    ghost var s: Table := map id | id in t :: Zeros;
    if societalFile.Some? {
      var good;
      good, s := ReadSocietal(respondents, t, societalFile.value, parseInt, parseReal);
      if !good {
        return false, map[];
      }
    }
    ok := true;
  }
}
