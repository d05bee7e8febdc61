/// The readers of DGGRID's text output: `parse_children` and
/// `parse_neighbors` (src/adapters/dggrid/common.rs:180-217,
/// src/adapters/dggrid.rs:165-202) and the AIGEN cell reader `parse_aigen`
/// (src/adapters/dggrid/common.rs:106-165, src/adapters/dggrid.rs:222-287).
module DggridParse {
  import opened Outcomes
  import opened RustStd
  import opened ZoneIds
  import opened Resolution
  import opened DggridCells

  predicate HasPrefix(prefix: string, s: string) {
    |prefix| <= |s| && s[..|prefix|] == prefix
  }

  /** `format!("{:02}{}", res, s)` for every token `s`. */
  function PrefixEach(prefix: string, tokens: seq<string>): seq<string> {
    seq(|tokens|, i requires 0 <= i < |tokens| => prefix + tokens[i])
  }

  /** The white-space separated tokens of each line of `data`. */
  function TokenRows(data: string): seq<seq<string>> {
    var lines := Lines(data);
    seq(|lines|, i requires 0 <= i < |lines| => Tokens(lines[i]))
  }

  // ---------------------------------------------------------------------
  // Children and neighbours

  /** The `filter_map` shared by `parse_children` and `parse_neighbors`: a row
      without tokens yields nothing; otherwise its first token, behind the
      prefix of `idRes`, names the cell, and the other tokens, behind the
      prefix of `arrRes`, form its array. */
  function AdjacencyEntries(rows: seq<seq<string>>, idRes: nat, arrRes: nat): (r: seq<IdArray>)
    ensures |r| <= |rows|
    ensures forall e :: e in r ==> e.id.Some? && e.arr.Some? && HasPrefix(ZeroPad2(idRes), e.id.value)
    ensures forall e :: e in r ==> forall s :: s in e.arr.value ==> HasPrefix(ZeroPad2(arrRes), s)
  {
    if rows == [] then []
    else
      var row := rows[0];
      var head := if row == [] then [] else [Entry(row, idRes, arrRes)];
      head + AdjacencyEntries(rows[1..], idRes, arrRes)
  }

  /** The lines that have at least one token, in order. */
  function NonBlankRows(rows: seq<seq<string>>): (nb: seq<seq<string>>)
    ensures |nb| <= |rows|
    ensures forall i :: 0 <= i < |nb| ==> nb[i] != [] && nb[i] in rows
    ensures forall row :: row in rows && row != [] ==> row in nb
  {
    if rows == [] then []
    else (if rows[0] == [] then [] else [rows[0]]) + NonBlankRows(rows[1..])
  }

  /** The filter keeps the order of the lines: filtering a concatenation
      filters each part in turn. */
  lemma {:induction false} NonBlankRowsAppend(a: seq<seq<string>>, b: seq<seq<string>>)
    ensures NonBlankRows(a + b) == NonBlankRows(a) + NonBlankRows(b)
    decreases |a|
  {
    if a == [] {
      assert a + b == b;
    } else {
      assert (a + b)[0] == a[0];
      assert (a + b)[1..] == a[1..] + b;
      NonBlankRowsAppend(a[1..], b);
    }
  }

  /** The entry of one line with tokens. */
  function Entry(row: seq<string>, idRes: nat, arrRes: nat): IdArray
    requires row != []
  {
    IdArray(Some(ZeroPad2(idRes) + row[0]), Some(PrefixEach(ZeroPad2(arrRes), row[1..])))
  }

  /** Every line of `nb`, which all have tokens, turned into its entry. */
  function MappedRows(nb: seq<seq<string>>, idRes: nat, arrRes: nat): (r: seq<IdArray>)
    requires forall i :: 0 <= i < |nb| ==> nb[i] != []
    ensures |r| == |nb|
  {
    seq(|nb|, i requires 0 <= i < |nb| => Entry(nb[i], idRes, arrRes))
  }

  /** Mapping a line followed by more lines maps the line, then the rest. */
  lemma MappedRowsCons(row: seq<string>, tail: seq<seq<string>>, idRes: nat, arrRes: nat)
    requires row != [] && forall i :: 0 <= i < |tail| ==> tail[i] != []
    ensures MappedRows([row] + tail, idRes, arrRes) == [Entry(row, idRes, arrRes)] + MappedRows(tail, idRes, arrRes)
  {
    var m := MappedRows([row] + tail, idRes, arrRes);
    var expected := [Entry(row, idRes, arrRes)] + MappedRows(tail, idRes, arrRes);
    assert forall i :: 0 <= i < |m| ==> m[i] == expected[i];
  }

  /** An independent reading of the `filter_map`: drop the lines without
      tokens, then turn every remaining line into its entry. */
  lemma {:induction false} EntriesAreMappedRows(rows: seq<seq<string>>, idRes: nat, arrRes: nat)
    ensures AdjacencyEntries(rows, idRes, arrRes) == MappedRows(NonBlankRows(rows), idRes, arrRes)
    decreases |rows|
  {
    if rows != [] {
      var tail := NonBlankRows(rows[1..]);
      EntriesAreMappedRows(rows[1..], idRes, arrRes);
      if rows[0] != [] {
        var row := rows[0];
        assert NonBlankRows(rows) == [row] + tail;
        MappedRowsCons(row, tail, idRes, arrRes);
      } else {
        assert NonBlankRows(rows) == tail;
      }
    }
  }

  /** `parse_children`: one entry per line with tokens, in line order; its id is
      the first token behind the level's `{:02}` prefix, and its children are
      the other tokens behind the prefix of the level `res + 1`, as a wrapping `u8`. */
  function ParseChildren(data: string, res: u8): (r: seq<IdArray>)
    ensures var nb := NonBlankRows(TokenRows(data));
      |r| == |nb| &&
      forall i :: 0 <= i < |r| ==>
        r[i].id == Some(ZeroPad2(res as nat) + nb[i][0]) &&
        r[i].arr == Some(PrefixEach(ZeroPad2(WrappingAdd(res, 1) as nat), nb[i][1..]))
  {
    EntriesAreMappedRows(TokenRows(data), res as nat, WrappingAdd(res, 1) as nat);
    AdjacencyEntries(TokenRows(data), res as nat, WrappingAdd(res, 1) as nat)
  }

  /** `parse_neighbors`: as `parse_children`, with the neighbours at the same level. */
  function ParseNeighbors(data: string, res: u8): (r: seq<IdArray>)
    ensures var nb := NonBlankRows(TokenRows(data));
      |r| == |nb| &&
      forall i :: 0 <= i < |r| ==>
        r[i].id == Some(ZeroPad2(res as nat) + nb[i][0]) &&
        r[i].arr == Some(PrefixEach(ZeroPad2(res as nat), nb[i][1..]))
  {
    EntriesAreMappedRows(TokenRows(data), res as nat, res as nat);
    AdjacencyEntries(TokenRows(data), res as nat, res as nat)
  }

  /** The entries of consecutive blocks of lines are the blocks' entries, in order. */
  lemma {:induction false} EntriesAppend(a: seq<seq<string>>, b: seq<seq<string>>, idRes: nat, arrRes: nat)
    ensures AdjacencyEntries(a + b, idRes, arrRes) == AdjacencyEntries(a, idRes, arrRes) + AdjacencyEntries(b, idRes, arrRes)
    decreases |a|
  {
    if a == [] {
      assert a + b == b;
    } else {
      assert (a + b)[0] == a[0] && (a + b)[1..] == a[1..] + b;
      EntriesAppend(a[1..], b, idRes, arrRes);
    }
  }

  /** One line yields exactly one entry when it has a token, and none otherwise. */
  lemma EntriesOfOneRow(row: seq<string>, idRes: nat, arrRes: nat)
    ensures row == [] ==> AdjacencyEntries([row], idRes, arrRes) == []
    ensures row != [] ==>
      AdjacencyEntries([row], idRes, arrRes) == [IdArray(Some(ZeroPad2(idRes) + row[0]), Some(PrefixEach(ZeroPad2(arrRes), row[1..])))]
  {
    assert [row][1..] == [];
  }

  /** A line without tokens can be removed without changing the result. */
  lemma BlankRowIgnored(a: seq<seq<string>>, b: seq<seq<string>>, idRes: nat, arrRes: nat)
    ensures AdjacencyEntries(a + [[]] + b, idRes, arrRes) == AdjacencyEntries(a + b, idRes, arrRes)
  {
    EntriesAppend(a + [[]], b, idRes, arrRes);
    EntriesAppend(a, [[]], idRes, arrRes);
    EntriesAppend(a, b, idRes, arrRes);
    EntriesOfOneRow([], idRes, arrRes);
  }

  /** A line of white space only has no tokens. */
  lemma {:induction false} BlankLineHasNoTokens(line: string)
    requires forall i :: 0 <= i < |line| ==> IsWhitespace(line[i])
    ensures Tokens(line) == []
    decreases |line|
  {
    if line != [] {
      BlankLineHasNoTokens(line[1..]);
    }
  }

  lemma PrefixedRoundTrip(res: nat, s: string)
    requires res <= 99 && HasPrefix(ZeroPad2(res), s)
    ensures Z3Sliceable(s) && ExtractResFromZ3(s) == Ok(res as u8)
  {
    var p := ZeroPad2(res);
    assert s == p + s[|p|..];
    ZeroPaddedPrefixRoundTrip(res, s[|p|..]);
  }

  /** Below level 99, every id `parse_children` writes reads back as `res`
      and every child as `res + 1`. */
  lemma ChildrenCarryResolution(data: string, res: u8)
    requires res < 99
    ensures forall e :: e in ParseChildren(data, res) ==>
      Z3Sliceable(e.id.value) && ExtractResFromZ3(e.id.value) == Ok(res)
    ensures forall e :: e in ParseChildren(data, res) ==> forall s :: s in e.arr.value ==>
      Z3Sliceable(s) && ExtractResFromZ3(s) == Ok(res + 1)
  {
    forall e | e in ParseChildren(data, res)
      ensures Z3Sliceable(e.id.value) && ExtractResFromZ3(e.id.value) == Ok(res)
      ensures forall s :: s in e.arr.value ==> Z3Sliceable(s) && ExtractResFromZ3(s) == Ok(res + 1)
    {
      PrefixedRoundTrip(res as nat, e.id.value);
      forall s | s in e.arr.value
        ensures Z3Sliceable(s) && ExtractResFromZ3(s) == Ok(res + 1)
      {
        PrefixedRoundTrip(res as nat + 1, s);
      }
    }
  }

  /** Up to level 99, every id and every neighbour `parse_neighbors` writes reads back as `res`. */
  lemma NeighborsCarryResolution(data: string, res: u8)
    requires res <= 99
    ensures forall e :: e in ParseNeighbors(data, res) ==>
      Z3Sliceable(e.id.value) && ExtractResFromZ3(e.id.value) == Ok(res)
    ensures forall e :: e in ParseNeighbors(data, res) ==> forall s :: s in e.arr.value ==>
      Z3Sliceable(s) && ExtractResFromZ3(s) == Ok(res)
  {
    forall e | e in ParseNeighbors(data, res)
      ensures Z3Sliceable(e.id.value) && ExtractResFromZ3(e.id.value) == Ok(res)
      ensures forall s :: s in e.arr.value ==> Z3Sliceable(s) && ExtractResFromZ3(s) == Ok(res)
    {
      PrefixedRoundTrip(res as nat, e.id.value);
      forall s | s in e.arr.value
        ensures Z3Sliceable(s) && ExtractResFromZ3(s) == Ok(res)
      {
        PrefixedRoundTrip(res as nat, s);
      }
    }
  }

  /** At level 255 the child level wraps to 0, so children are written with prefix "00". */
  lemma ChildLevelWraps()
    ensures WrappingAdd(255, 1) == 0 && ZeroPad2(WrappingAdd(255, 1) as nat) == "00"
  {
  }

  // ---------------------------------------------------------------------
  // AIGEN cells

  /** How a header line's first token becomes a cell id: `common.rs` always
      puts the zero-padded level in front; `dggrid.rs` does so for ISEA3H and
      IGEO7 and keeps the token as it is for any other type. */
  datatype IdScheme = AlwaysPrefixed | ByDggsType(dggsType: string)

  predicate Prefixes(scheme: IdScheme) {
    scheme.AlwaysPrefixed? || scheme.dggsType == ISEA3H || scheme.dggsType == IGEO7
  }

  function HeaderId(scheme: IdScheme, res: u8, token: string): (id: string)
    ensures Prefixes(scheme) ==> id == ZeroPad2(res as nat) + token
    ensures !Prefixes(scheme) ==> id == token
  {
    match scheme
    case AlwaysPrefixed => ZeroPad2(res as nat) + token
    case ByDggsType(t) => if t == ISEA3H || t == IGEO7 then ZeroPad2(res as nat) + token else token
  }

  const BAD_ID: string := "Cannot accept this id"
  const BAD_FLOAT: string := "cannot parse floating point number"

  /** The local variables of `parse_aigen` and the cells pushed so far. */
  datatype AigenState = AigenState(cellId: ZoneId, center: Point, raw: seq<Point>, vCount: nat, cells: seq<CellGeo>)

  function InitialState(): AigenState {
    AigenState(DefaultZoneId(), Point(0.0, 0.0), [], 0, [])
  }

  /** `Polygon::new` closes an open exterior ring by repeating its first point. */
  function CloseRing(ring: seq<Point>): (r: seq<Point>)
    ensures |ring| > 0 ==> |r| > 0 && r[0] == r[|r| - 1]
    ensures |ring| <= |r| <= |ring| + 1 && r[..|ring|] == ring
  {
    if |ring| > 0 && ring[0] != ring[|ring| - 1] then ring + [ring[0]] else ring
  }

  lemma CloseRingIdempotent(ring: seq<Point>)
    ensures CloseRing(CloseRing(ring)) == CloseRing(ring)
  {
  }

  /** One line of the AIGEN loop, given its tokens `parts`. `parseFloat` is `str::parse::<f64>`. */
  function AigenStep(scheme: IdScheme, res: u8, parseFloat: string -> Option<real>,
                     st: AigenState, parts: seq<string>): (r: Run<AigenState>)
    ensures r.Panicked? ==> (|parts| == 2 || |parts| == 3) && (r.message == BAD_ID || r.message == BAD_FLOAT)
    ensures r.Panicked? && r.message == BAD_ID ==> |parts| == 3 && NewZoneId(HeaderId(scheme, res, parts[0])).Err?
    ensures r.Completed? ==> st.cells <= r.value.cells && |r.value.cells| <= |st.cells| + 1
    ensures r.Completed? && |parts| != 3 ==> r.value.cellId == st.cellId && r.value.center == st.center
  {
    if |parts| == 3 then
      match NewZoneId(HeaderId(scheme, res, parts[0]))
      case Err(_) => Panicked(BAD_ID)
      case Ok(id) =>
        if parseFloat(parts[1]).None? || parseFloat(parts[2]).None? then Panicked(BAD_FLOAT)
        else Completed(st.(cellId := id, center := Point(parseFloat(parts[1]).value, parseFloat(parts[2]).value)))
    else if |parts| == 2 then
      if parseFloat(parts[0]).None? || parseFloat(parts[1]).None? then Panicked(BAD_FLOAT)
      else Completed(st.(vCount := st.vCount + 1,
                         raw := st.raw + [Point(parseFloat(parts[0]).value, parseFloat(parts[1]).value)]))
    else if |parts| == 1 && parts[0] == "END" && st.vCount > 1 then
      var cell := CellGeo(st.cellId, CloseRing(st.raw), st.center, st.vCount - 1, None, None);
      Completed(st.(raw := [], vCount := 0, cells := st.cells + [cell]))
    else
      Completed(st)
  }

  /** The loop over the token rows of all lines, stopping at the first panic. */
  function AigenRun(scheme: IdScheme, res: u8, parseFloat: string -> Option<real>,
                    rows: seq<seq<string>>, st: AigenState): (r: Run<AigenState>)
    ensures r.Panicked? ==> r.message == BAD_ID || r.message == BAD_FLOAT
    ensures r.Completed? ==> st.cells <= r.value.cells
    decreases |rows|
  {
    if rows == [] then Completed(st)
    else
      match AigenStep(scheme, res, parseFloat, st, rows[0])
      case Panicked(m) => Panicked(m)
      case Completed(next) => AigenRun(scheme, res, parseFloat, rows[1..], next)
  }

  /** The four outcomes of a line that does not panic, one lemma each. */
  lemma HeaderLineStep(scheme: IdScheme, res: u8, parseFloat: string -> Option<real>, st: AigenState,
                       parts: seq<string>, id: ZoneId, x: real, y: real)
    requires |parts| == 3 && NewZoneId(HeaderId(scheme, res, parts[0])) == Ok(id)
    requires parseFloat(parts[1]) == Some(x) && parseFloat(parts[2]) == Some(y)
    ensures AigenStep(scheme, res, parseFloat, st, parts) == Completed(st.(cellId := id, center := Point(x, y)))
  {
  }

  lemma PairLineStep(scheme: IdScheme, res: u8, parseFloat: string -> Option<real>, st: AigenState,
                     parts: seq<string>, x: real, y: real)
    requires |parts| == 2 && parseFloat(parts[0]) == Some(x) && parseFloat(parts[1]) == Some(y)
    ensures AigenStep(scheme, res, parseFloat, st, parts) ==
      Completed(st.(vCount := st.vCount + 1, raw := st.raw + [Point(x, y)]))
  {
  }

  lemma EndLineStep(scheme: IdScheme, res: u8, parseFloat: string -> Option<real>, st: AigenState, parts: seq<string>)
    requires |parts| == 1 && parts[0] == "END" && st.vCount > 1
    ensures AigenStep(scheme, res, parseFloat, st, parts) ==
      Completed(st.(raw := [], vCount := 0,
                    cells := st.cells + [CellGeo(st.cellId, CloseRing(st.raw), st.center, st.vCount - 1, None, None)]))
  {
  }

  /** One turn of the loop: the run from row `k` is that row's panic, or the
      run from row `k + 1` after that row's step. */
  lemma RunFromRow(scheme: IdScheme, res: u8, parseFloat: string -> Option<real>,
                   rows: seq<seq<string>>, k: nat, st: AigenState)
    requires k < |rows|
    ensures AigenStep(scheme, res, parseFloat, st, rows[k]).Panicked? ==>
      AigenRun(scheme, res, parseFloat, rows[k..], st) == AigenStep(scheme, res, parseFloat, st, rows[k])
    ensures AigenStep(scheme, res, parseFloat, st, rows[k]).Completed? ==>
      AigenRun(scheme, res, parseFloat, rows[k..], st) ==
      AigenRun(scheme, res, parseFloat, rows[k + 1..], AigenStep(scheme, res, parseFloat, st, rows[k]).value)
  {
    assert rows[k..][0] == rows[k] && rows[k..][1..] == rows[k + 1..];
  }

  /** The body of the `parse_aigen` loop for one line's tokens, on the loop's
      local variables held in `st`. */
  method AigenLine(scheme: IdScheme, res: u8, parseFloat: string -> Option<real>, st: AigenState, parts: seq<string>)
    returns (r: Run<AigenState>)
    ensures r == AigenStep(scheme, res, parseFloat, st, parts)
  {
    var cellId, pnt, raw, vCount, cells := st.cellId, st.center, st.raw, st.vCount, st.cells;
    if |parts| == 3 {
      var idResult := NewZoneId(HeaderId(scheme, res, parts[0]));
      if idResult.Err? {
        return Panicked(BAD_ID);
      }
      cellId := idResult.value;
      var x := parseFloat(parts[1]);
      var y := parseFloat(parts[2]);
      if x.None? || y.None? {
        return Panicked(BAD_FLOAT);
      }
      pnt := Point(x.value, y.value);
    } else if |parts| == 2 {
      vCount := vCount + 1;
      var x := parseFloat(parts[0]);
      var y := parseFloat(parts[1]);
      if x.None? || y.None? {
        return Panicked(BAD_FLOAT);
      }
      raw := raw + [Point(x.value, y.value)];
    } else if |parts| == 1 && parts[0] == "END" && vCount > 1 {
      var cell := CellGeo(cellId, CloseRing(raw), pnt, vCount - 1, None, None);
      cells := cells + [cell];
      raw := [];
      vCount := 0;
    }
    return Completed(AigenState(cellId, pnt, raw, vCount, cells));
  }

  /** The shared loop of both `parse_aigen` functions. */
  method RunAigen(data: string, scheme: IdScheme, res: u8, parseFloat: string -> Option<real>)
    returns (outcome: Run<CellsGeo>)
    ensures AigenRun(scheme, res, parseFloat, TokenRows(data), InitialState()).Panicked? ==>
      outcome == Panicked(AigenRun(scheme, res, parseFloat, TokenRows(data), InitialState()).message)
    ensures AigenRun(scheme, res, parseFloat, TokenRows(data), InitialState()).Completed? ==>
      outcome.Completed? && fresh(outcome.value) &&
      outcome.value.cells == AigenRun(scheme, res, parseFloat, TokenRows(data), InitialState()).value.cells
  {
    var lines := Lines(data);
    ghost var rows := TokenRows(data);
    var st := InitialState();
    var k := 0;
    while k < |lines|
      invariant 0 <= k <= |lines|
      invariant AigenRun(scheme, res, parseFloat, rows, InitialState()) == AigenRun(scheme, res, parseFloat, rows[k..], st)
    {
      var parts := Tokens(lines[k]);
      assert parts == rows[k];
      var step := AigenLine(scheme, res, parseFloat, st, parts);
      RunFromRow(scheme, res, parseFloat, rows, k, st);
      if step.Panicked? {
        return Panicked(step.message);
      }
      st := step.value;
      k := k + 1;
    }
    var cellsGeo := new CellsGeo(st.cells);
    return Completed(cellsGeo);
  }

  /** `parse_aigen` of src/adapters/dggrid/common.rs: ids always carry the level. */
  method ParseAigen(data: string, res: u8, parseFloat: string -> Option<real>) returns (outcome: Run<CellsGeo>)
    ensures AigenRun(AlwaysPrefixed, res, parseFloat, TokenRows(data), InitialState()).Panicked? ==>
      outcome == Panicked(AigenRun(AlwaysPrefixed, res, parseFloat, TokenRows(data), InitialState()).message)
    ensures AigenRun(AlwaysPrefixed, res, parseFloat, TokenRows(data), InitialState()).Completed? ==>
      outcome.Completed? && fresh(outcome.value) &&
      outcome.value.cells == AigenRun(AlwaysPrefixed, res, parseFloat, TokenRows(data), InitialState()).value.cells
  {
    outcome := RunAigen(data, AlwaysPrefixed, res, parseFloat);
  }

  /** `parse_aigen` of src/adapters/dggrid.rs: ids carry the level for ISEA3H and IGEO7 only. */
  method ParseAigenTyped(data: string, dggsType: string, res: u8, parseFloat: string -> Option<real>)
    returns (outcome: Run<CellsGeo>)
    ensures AigenRun(ByDggsType(dggsType), res, parseFloat, TokenRows(data), InitialState()).Panicked? ==>
      outcome == Panicked(AigenRun(ByDggsType(dggsType), res, parseFloat, TokenRows(data), InitialState()).message)
    ensures AigenRun(ByDggsType(dggsType), res, parseFloat, TokenRows(data), InitialState()).Completed? ==>
      outcome.Completed? && fresh(outcome.value) &&
      outcome.value.cells == AigenRun(ByDggsType(dggsType), res, parseFloat, TokenRows(data), InitialState()).value.cells
  {
    outcome := RunAigen(data, ByDggsType(dggsType), res, parseFloat);
  }

  /** A cell as `parse_aigen` emits it: an accepted id, no children or
      neighbours yet, at least one vertex, and a closed ring holding the
      `vertexCount + 1` coordinates read, plus the closing point when they did
      not already end where they started. */
  predicate WellFormedCell(c: CellGeo) {
    IsValidZoneId(c.id.id) && c.children.None? && c.neighbors.None? &&
    c.vertexCount >= 1 && c.vertexCount + 1 <= |c.region| <= c.vertexCount + 2 &&
    c.region[0] == c.region[|c.region| - 1]
  }

  /** The id was built from a header line of a level-prefixing scheme, or is the default. */
  predicate CarriesLevel(id: ZoneId, res: u8) {
    id == DefaultZoneId() || HasPrefix(ZeroPad2(res as nat), id.id)
  }

  /** What every reachable state of the loop satisfies. */
  predicate GoodState(scheme: IdScheme, res: u8, st: AigenState) {
    |st.raw| == st.vCount && IsValidZoneId(st.cellId.id) &&
    AllWellFormed(st.cells) && (Prefixes(scheme) ==> CarriesLevel(st.cellId, res) && AllCarryLevel(st.cells, res))
  }

  predicate AllWellFormed(cells: seq<CellGeo>) {
    forall i :: 0 <= i < |cells| ==> WellFormedCell(cells[i])
  }

  predicate AllCarryLevel(cells: seq<CellGeo>, res: u8) {
    forall i :: 0 <= i < |cells| ==> CarriesLevel(cells[i].id, res)
  }

  /** The ring an "END" line closes, from at least two points, makes a well-formed cell. */
  lemma ClosedCellWellFormed(id: ZoneId, raw: seq<Point>, center: Point)
    requires IsValidZoneId(id.id) && |raw| > 1
    ensures WellFormedCell(CellGeo(id, CloseRing(raw), center, |raw| - 1, None, None))
  {
  }

  lemma AppendKeepsCellsGood(cells: seq<CellGeo>, cell: CellGeo, res: u8)
    requires AllWellFormed(cells) && WellFormedCell(cell)
    ensures AllWellFormed(cells + [cell])
    ensures AllCarryLevel(cells, res) && CarriesLevel(cell.id, res) ==> AllCarryLevel(cells + [cell], res)
  {
    assert forall i :: 0 <= i < |cells| ==> (cells + [cell])[i] == cells[i];
  }

  /** A header line keeps the state good: its id passed `ZoneID::new`, and under
      a prefixing scheme it starts with the zero-padded level. */
  lemma HeaderKeepsGoodState(scheme: IdScheme, res: u8, st: AigenState, token: string, id: ZoneId, center: Point)
    requires GoodState(scheme, res, st)
    requires NewZoneId(HeaderId(scheme, res, token)) == Ok(id)
    ensures GoodState(scheme, res, st.(cellId := id, center := center))
  {
    if Prefixes(scheme) {
      var full := HeaderId(scheme, res, token);
      assert full[..|ZeroPad2(res as nat)|] == ZeroPad2(res as nat);
    }
  }

  /** A coordinate pair keeps the state good. */
  lemma PairKeepsGoodState(scheme: IdScheme, res: u8, st: AigenState, p: Point)
    requires GoodState(scheme, res, st)
    ensures GoodState(scheme, res, st.(vCount := st.vCount + 1, raw := st.raw + [p]))
  {
  }

  /** An "END" line after at least two points emits a well-formed cell. */
  lemma EndKeepsGoodState(scheme: IdScheme, res: u8, st: AigenState)
    requires GoodState(scheme, res, st) && st.vCount > 1
    ensures GoodState(scheme, res, st.(raw := [], vCount := 0,
                      cells := st.cells + [CellGeo(st.cellId, CloseRing(st.raw), st.center, st.vCount - 1, None, None)]))
  {
    ClosedCellWellFormed(st.cellId, st.raw, st.center);
    AppendKeepsCellsGood(st.cells, CellGeo(st.cellId, CloseRing(st.raw), st.center, st.vCount - 1, None, None), res);
  }

  lemma AigenStepKeepsGoodState(scheme: IdScheme, res: u8, parseFloat: string -> Option<real>,
                                st: AigenState, parts: seq<string>)
    requires GoodState(scheme, res, st)
    ensures AigenStep(scheme, res, parseFloat, st, parts).Completed? ==>
      GoodState(scheme, res, AigenStep(scheme, res, parseFloat, st, parts).value)
  {
    if |parts| == 3 {
      var idr := NewZoneId(HeaderId(scheme, res, parts[0]));
      var x := parseFloat(parts[1]);
      var y := parseFloat(parts[2]);
      if idr.Ok? && x.Some? && y.Some? {
        HeaderLineStep(scheme, res, parseFloat, st, parts, idr.value, x.value, y.value);
        HeaderKeepsGoodState(scheme, res, st, parts[0], idr.value, Point(x.value, y.value));
      }
    } else if |parts| == 2 {
      var x := parseFloat(parts[0]);
      var y := parseFloat(parts[1]);
      if x.Some? && y.Some? {
        PairLineStep(scheme, res, parseFloat, st, parts, x.value, y.value);
        PairKeepsGoodState(scheme, res, st, Point(x.value, y.value));
      }
    } else if |parts| == 1 && parts[0] == "END" && st.vCount > 1 {
      EndLineStep(scheme, res, parseFloat, st, parts);
      EndKeepsGoodState(scheme, res, st);
    } else {
      IdleLinesChangeNothing(scheme, res, parseFloat, st, parts);
    }
  }

  /** The loop keeps every reachable state good. */
  lemma {:induction false} AigenRunKeepsGoodState(scheme: IdScheme, res: u8, parseFloat: string -> Option<real>,
                                                  rows: seq<seq<string>>, st: AigenState)
    requires GoodState(scheme, res, st)
    ensures AigenRun(scheme, res, parseFloat, rows, st).Completed? ==>
      GoodState(scheme, res, AigenRun(scheme, res, parseFloat, rows, st).value)
    decreases |rows|
  {
    if rows != [] {
      AigenStepKeepsGoodState(scheme, res, parseFloat, st, rows[0]);
      var step := AigenStep(scheme, res, parseFloat, st, rows[0]);
      if step.Completed? {
        AigenRunKeepsGoodState(scheme, res, parseFloat, rows[1..], step.value);
      }
    }
  }

  /** Every cell `parse_aigen` returns is well formed; with a level-prefixing
      scheme and a level up to 99, each id is the default one or reads back as
      that level. */
  lemma ParsedCellsWellFormed(data: string, scheme: IdScheme, res: u8, parseFloat: string -> Option<real>)
    requires AigenRun(scheme, res, parseFloat, TokenRows(data), InitialState()).Completed?
    ensures var cells := AigenRun(scheme, res, parseFloat, TokenRows(data), InitialState()).value.cells;
      forall i :: 0 <= i < |cells| ==> WellFormedCell(cells[i])
    ensures var cells := AigenRun(scheme, res, parseFloat, TokenRows(data), InitialState()).value.cells;
      Prefixes(scheme) && res <= 99 ==>
        forall i :: 0 <= i < |cells| ==>
          cells[i].id == DefaultZoneId() || (Z3Sliceable(cells[i].id.id) && ExtractResFromZ3(cells[i].id.id) == Ok(res))
  {
    var cells := AigenRun(scheme, res, parseFloat, TokenRows(data), InitialState()).value.cells;
    AigenRunKeepsGoodState(scheme, res, parseFloat, TokenRows(data), InitialState());
    if Prefixes(scheme) && res <= 99 {
      forall i | 0 <= i < |cells| && cells[i].id != DefaultZoneId()
        ensures Z3Sliceable(cells[i].id.id) && ExtractResFromZ3(cells[i].id.id) == Ok(res)
      {
        PrefixedRoundTrip(res as nat, cells[i].id.id);
      }
    }
  }

  /** A line that is not a header, a coordinate pair, or an "END" closing at
      least two coordinates leaves the state as it was: in particular an
      "END" after a single coordinate keeps that coordinate for the next ring. */
  lemma IdleLinesChangeNothing(scheme: IdScheme, res: u8, parseFloat: string -> Option<real>,
                               st: AigenState, parts: seq<string>)
    requires |parts| != 2 && |parts| != 3
    requires |parts| == 1 ==> parts[0] != "END" || st.vCount <= 1
    ensures AigenStep(scheme, res, parseFloat, st, parts) == Completed(st)
  {
  }

  /** An "END" closing at least two coordinates emits exactly one cell from the
      latest header and the coordinates read since the last emission, with one
      vertex fewer than coordinates, and resets the coordinates. */
  lemma EndEmitsCell(scheme: IdScheme, res: u8, parseFloat: string -> Option<real>, st: AigenState, parts: seq<string>)
    requires parts == ["END"] && st.vCount > 1
    ensures var next := AigenStep(scheme, res, parseFloat, st, parts);
      next.Completed? && next.value.raw == [] && next.value.vCount == 0 &&
      next.value.cellId == st.cellId && next.value.center == st.center &&
      |next.value.cells| == |st.cells| + 1 && next.value.cells[..|st.cells|] == st.cells &&
      next.value.cells[|st.cells|] == CellGeo(st.cellId, CloseRing(st.raw), st.center, st.vCount - 1, None, None)
  {
  }

  /** The defaults survive a line that is not a header. */
  lemma HeaderlessStep(scheme: IdScheme, res: u8, parseFloat: string -> Option<real>, st: AigenState, parts: seq<string>)
    requires |parts| != 3
    ensures var r := AigenStep(scheme, res, parseFloat, st, parts);
      r.Completed? ==>
        r.value.cellId == st.cellId && r.value.center == st.center &&
        st.cells <= r.value.cells && |r.value.cells| <= |st.cells| + 1 &&
        (|r.value.cells| == |st.cells| + 1 ==> r.value.cells[|st.cells|].id == st.cellId &&
                                                r.value.cells[|st.cells|].center == st.center)
  {
  }

  /** Every cell carries the given id and centre. */
  predicate AllLabelled(cells: seq<CellGeo>, id: ZoneId, center: Point) {
    forall i :: 0 <= i < |cells| ==> cells[i].id == id && cells[i].center == center
  }

  /** Lines without a header never change the id or centre, so every cell
      emitted carries the id and centre the run started from. */
  lemma {:induction false} HeaderlessRunKeepsLabel(scheme: IdScheme, res: u8, parseFloat: string -> Option<real>,
                                                    rows: seq<seq<string>>, st: AigenState)
    requires forall i :: 0 <= i < |rows| ==> |rows[i]| != 3
    requires AllLabelled(st.cells, st.cellId, st.center)
    ensures var r := AigenRun(scheme, res, parseFloat, rows, st);
      r.Completed? ==> AllLabelled(r.value.cells, st.cellId, st.center)
    decreases |rows|
  {
    if rows != [] {
      HeaderlessStep(scheme, res, parseFloat, st, rows[0]);
      var step := AigenStep(scheme, res, parseFloat, st, rows[0]);
      if step.Completed? {
        var next := step.value;
        assert AigenRun(scheme, res, parseFloat, rows, st) == AigenRun(scheme, res, parseFloat, rows[1..], next);
        forall i | 0 <= i < |next.cells|
          ensures next.cells[i].id == st.cellId && next.cells[i].center == st.center
        {
          if i < |st.cells| {
            assert next.cells[i] == st.cells[i];
          }
        }
        assert forall i :: 0 <= i < |rows[1..]| ==> rows[1..][i] == rows[i + 1];
        HeaderlessRunKeepsLabel(scheme, res, parseFloat, rows[1..], next);
      }
    }
  }

  /** Coordinates read before any header end up in cells with the default id
      and the centre (0, 0). */
  lemma HeaderlessCellsGetDefaults(scheme: IdScheme, res: u8, parseFloat: string -> Option<real>,
                                   rows: seq<seq<string>>)
    requires forall i :: 0 <= i < |rows| ==> |rows[i]| != 3
    ensures var r := AigenRun(scheme, res, parseFloat, rows, InitialState());
      r.Completed? ==> AllLabelled(r.value.cells, DefaultZoneId(), Point(0.0, 0.0))
  {
    HeaderlessRunKeepsLabel(scheme, res, parseFloat, rows, InitialState());
  }

  /** Running over `a + b` runs over `a`, then over `b` from where `a` left
      off; a panic in `a` ends the run there. */
  lemma {:induction false} AigenRunAppend(scheme: IdScheme, res: u8, parseFloat: string -> Option<real>,
                                          a: seq<seq<string>>, b: seq<seq<string>>, st: AigenState)
    ensures AigenRun(scheme, res, parseFloat, a + b, st) ==
      match AigenRun(scheme, res, parseFloat, a, st)
      case Panicked(m) => Panicked(m)
      case Completed(mid) => AigenRun(scheme, res, parseFloat, b, mid)
    decreases |a|
  {
    if a == [] {
      assert a + b == b;
    } else {
      assert (a + b)[0] == a[0];
      assert (a + b)[1..] == a[1..] + b;
      match AigenStep(scheme, res, parseFloat, st, a[0])
      case Panicked(_) =>
      case Completed(next) => AigenRunAppend(scheme, res, parseFloat, a[1..], b, next);
    }
  }

  /** In a file whose first `k` lines hold no header, the cells those lines
      emit come first in the result and carry the default id and the
      centre (0, 0). */
  lemma CellsBeforeFirstHeaderGetDefaults(scheme: IdScheme, res: u8, parseFloat: string -> Option<real>,
                                          rows: seq<seq<string>>, k: nat)
    requires k <= |rows|
    requires forall i :: 0 <= i < k ==> |rows[i]| != 3
    ensures var r := AigenRun(scheme, res, parseFloat, rows, InitialState());
      r.Completed? ==>
        var early := AigenRun(scheme, res, parseFloat, rows[..k], InitialState());
        early.Completed? && early.value.cells <= r.value.cells &&
        AllLabelled(early.value.cells, DefaultZoneId(), Point(0.0, 0.0))
  {
    assert rows == rows[..k] + rows[k..];
    AigenRunAppend(scheme, res, parseFloat, rows[..k], rows[k..], InitialState());
    assert forall i :: 0 <= i < |rows[..k]| ==> |rows[..k][i]| != 3;
    HeaderlessCellsGetDefaults(scheme, res, parseFloat, rows[..k]);
  }
}
