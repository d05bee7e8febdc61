/// The text files the DGGRID adapter writes for the external DGGRID program:
/// the metafile of `dggrid_metafile` (src/adapters/dggrid.rs:92-149, with the
/// type-less variant of src/adapters/dggrid/common.rs:42-83) and the bounding
/// box ring of `bbox_to_aigen` (src/adapters/dggrid/common.rs:268-302 and
/// src/adapters/dggrid.rs:289-323). Creating the file and the I/O errors of
/// `writeln!` are left out: a method returns the lines it writes, in order.
module DggridFiles {
  import opened Outcomes
  import opened RustStd
  import opened Resolution
  import opened DggridCells
  import opened DggridParse

  // ---------------------------------------------------------------------
  // The metafile

  /** `DENSIFICATION`: points DGGRID adds along each cell edge. */
  const DENSIFICATION: nat := 50

  const UNSUPPORTED_TYPE: string := "Unsupported DGGS Type"

  /** The six lines every metafile starts with. */
  function CommonHeader(res: u8): seq<string> {
    ["longitude_wrap_mode UNWRAP_EAST",
     "cell_output_type AIGEN",
     "unwrap_points FALSE",
     "output_cell_label_type OUTPUT_ADDRESS_TYPE",
     "precision 9",
     "dggs_res_spec " + Decimal(res as nat)]
  }

  /** The grid lines of the two supported types; none for any other type. */
  function TypeLines(dggsType: string): Option<seq<string>> {
    if dggsType == ISEA3H then
      Some(["dggs_type " + ISEA3H, "dggs_aperture 3", "output_address_type Z3"])
    else if dggsType == IGEO7 then
      Some(["dggs_type " + IGEO7, "dggs_aperture 7", "output_address_type Z7"])
    else None
  }

  /** The output file lines, and the densification line when asked for. */
  function OutputLines(cellOut: string, childrenOut: string, neighborOut: string, densify: bool): seq<string> {
    ["cell_output_file_name " + cellOut,
     "neighbor_output_type TEXT",
     "neighbor_output_file_name " + neighborOut,
     "children_output_type TEXT",
     "children_output_file_name " + childrenOut]
    + (if densify then ["densification " + Decimal(DENSIFICATION)] else [])
  }

  /** What `dggrid_metafile` writes, and what it returns. */
  function Metafile(dggsType: string, res: u8, cellOut: string, childrenOut: string, neighborOut: string,
                    densify: bool): (r: (seq<string>, Result<()>))
    ensures r.1.Err? <==> TypeLines(dggsType).None?
    ensures |r.0| >= 6 && r.0[..6] == CommonHeader(res)
    ensures r.1.Ok? ==> |r.0| >= 9 && r.0[6..9] == TypeLines(dggsType).value &&
                        r.0[9..] == OutputLines(cellOut, childrenOut, neighborOut, densify)
    ensures r.1.Err? ==> r.0 == CommonHeader(res)
  {
    match TypeLines(dggsType)
    case None => (CommonHeader(res), Err(UNSUPPORTED_TYPE))
    case Some(lines) => (CommonHeader(res) + lines + OutputLines(cellOut, childrenOut, neighborOut, densify), Ok(()))
  }

  /** `dggrid_metafile` of src/adapters/dggrid.rs: one `writeln!` after the
      other, returning early with an error for an unsupported type. */
  method DggridMetafile(dggsType: string, res: u8, cellOut: string, childrenOut: string, neighborOut: string,
                        densify: bool)
    returns (written: seq<string>, result: Result<()>)
    ensures (written, result) == Metafile(dggsType, res, cellOut, childrenOut, neighborOut, densify)
  {
    written := [];
    written := written + ["longitude_wrap_mode UNWRAP_EAST"];
    written := written + ["cell_output_type AIGEN"];
    written := written + ["unwrap_points FALSE"];
    written := written + ["output_cell_label_type OUTPUT_ADDRESS_TYPE"];
    written := written + ["precision 9"];
    written := written + ["dggs_res_spec " + Decimal(res as nat)];
    assert written == CommonHeader(res);
    if dggsType == ISEA3H {
      written := written + ["dggs_type " + dggsType];
      written := written + ["dggs_aperture 3"];
      written := written + ["output_address_type Z3"];
    } else if dggsType == IGEO7 {
      written := written + ["dggs_type " + dggsType];
      written := written + ["dggs_aperture 7"];
      written := written + ["output_address_type Z7"];
    } else {
      return written, Err(UNSUPPORTED_TYPE);
    }
    ghost var typed := written;
    assert typed == CommonHeader(res) + TypeLines(dggsType).value;
    written := written + ["cell_output_file_name " + cellOut];
    written := written + ["neighbor_output_type TEXT"];
    written := written + ["neighbor_output_file_name " + neighborOut];
    written := written + ["children_output_type TEXT"];
    written := written + ["children_output_file_name " + childrenOut];
    if densify {
      written := written + ["densification " + Decimal(DENSIFICATION)];
    }
    assert written == typed + OutputLines(cellOut, childrenOut, neighborOut, densify);
    result := Ok(());
  }

  /** The type check comes after the header: an unsupported type fails with
      exactly the six header lines written, a supported one succeeds. */
  lemma MetafileFailsOnlyForOtherTypes(dggsType: string, res: u8, cellOut: string, childrenOut: string,
                                       neighborOut: string, densify: bool)
    ensures var (lines, result) := Metafile(dggsType, res, cellOut, childrenOut, neighborOut, densify);
      (result.Err? <==> dggsType != ISEA3H && dggsType != IGEO7) &&
      (result.Err? ==> result.error == UNSUPPORTED_TYPE && |lines| == 6) &&
      (result.Ok? ==> |lines| == (if densify then 15 else 14))
  {
  }

  /** The header comes first, and its level line reads back as the level. */
  lemma MetafileHeaderFirst(dggsType: string, res: u8, cellOut: string, childrenOut: string,
                            neighborOut: string, densify: bool)
    ensures var lines := Metafile(dggsType, res, cellOut, childrenOut, neighborOut, densify).0;
      |lines| >= 6 && lines[..6] == CommonHeader(res) &&
      HasPrefix("dggs_res_spec ", lines[5]) && ParseUnsigned(lines[5][14..], 10, 255) == Some(res as nat)
  {
    var lines := Metafile(dggsType, res, cellOut, childrenOut, neighborOut, densify).0;
    assert lines[..6] == CommonHeader(res);
    assert lines[5][14..] == Decimal(res as nat);
    DecimalRoundTrip(res as nat, 255);
  }

  /** The aperture and the address type always agree: 3 with Z3 for ISEA3H,
      7 with Z7 for IGEO7. */
  lemma MetafileTypeBlock(dggsType: string, res: u8, cellOut: string, childrenOut: string,
                          neighborOut: string, densify: bool)
    ensures var (lines, result) := Metafile(dggsType, res, cellOut, childrenOut, neighborOut, densify);
      result.Ok? ==>
        lines[6] == "dggs_type " + dggsType &&
        (dggsType == ISEA3H ==> lines[7] == "dggs_aperture 3" && lines[8] == "output_address_type Z3") &&
        (dggsType == IGEO7 ==> lines[7] == "dggs_aperture 7" && lines[8] == "output_address_type Z7")
  {
  }

  /** The line does not start with "de", so it is no densification line. */
  predicate NotDensification(line: string) {
    |line| < 2 || line[0] != 'd' || line[1] != 'e'
  }

  lemma FixedLinesAreNotDensification(dggsType: string, res: u8, cellOut: string, childrenOut: string,
                                      neighborOut: string)
    ensures forall i :: 0 <= i < 6 ==> NotDensification(CommonHeader(res)[i])
    ensures TypeLines(dggsType).Some? ==> forall i :: 0 <= i < 3 ==> NotDensification(TypeLines(dggsType).value[i])
    ensures forall i :: 0 <= i < 5 ==> NotDensification(OutputLines(cellOut, childrenOut, neighborOut, false)[i])
  {
    var h := CommonHeader(res);
    assert h[5][0] == 'd' && h[5][1] == 'g';
    var o := OutputLines(cellOut, childrenOut, neighborOut, false);
    assert o[0][0] == 'c' && o[2][0] == 'n' && o[4][0] == 'c';
  }

  /** A densification line is written exactly when `densify` holds (and the
      type is supported); it is then the last line and names 50 points. */
  lemma DensificationIffDensify(dggsType: string, res: u8, cellOut: string, childrenOut: string,
                                neighborOut: string, densify: bool)
    ensures var (lines, result) := Metafile(dggsType, res, cellOut, childrenOut, neighborOut, densify);
      (exists i :: 0 <= i < |lines| && !NotDensification(lines[i])) <==> densify && result.Ok?
    ensures var (lines, result) := Metafile(dggsType, res, cellOut, childrenOut, neighborOut, densify);
      densify && result.Ok? ==> lines[|lines| - 1] == "densification 50"
  {
    var (lines, result) := Metafile(dggsType, res, cellOut, childrenOut, neighborOut, densify);
    FixedLinesAreNotDensification(dggsType, res, cellOut, childrenOut, neighborOut);
    assert Decimal(50) == "50" by {
      assert Decimal(5) == "5" && Decimal(0) == "0";
    }
    assert "densification " + Decimal(DENSIFICATION) == "densification 50";
    var plain := OutputLines(cellOut, childrenOut, neighborOut, false);
    if result.Ok? {
      var fixed := CommonHeader(res) + TypeLines(dggsType).value + plain;
      assert forall i :: 0 <= i < |fixed| ==> NotDensification(fixed[i]);
      assert lines == CommonHeader(res) + TypeLines(dggsType).value +
        OutputLines(cellOut, childrenOut, neighborOut, densify);
      if densify {
        assert OutputLines(cellOut, childrenOut, neighborOut, densify) == plain + ["densification 50"];
        assert lines == fixed + ["densification 50"];
        assert !NotDensification(lines[|lines| - 1]);
      } else {
        assert lines == fixed;
      }
    } else {
      assert lines == CommonHeader(res);
    }
  }

  /** `dggrid_metafile` of src/adapters/dggrid/common.rs: the same file
      without the grid lines, which never fails. */
  function CommonMetafile(res: u8, cellOut: string, childrenOut: string, neighborOut: string,
                          densify: bool): (lines: seq<string>)
    ensures |lines| == (if densify then 12 else 11)
    ensures lines[..6] == CommonHeader(res) && lines[5] == "dggs_res_spec " + Decimal(res as nat)
    ensures densify ==> lines[11] == "densification " + Decimal(DENSIFICATION)
  {
    CommonHeader(res) + OutputLines(cellOut, childrenOut, neighborOut, densify)
  }

  /** The two metafiles differ only in the three grid lines after the header. */
  lemma MetafilesDifferOnlyInTypeLines(dggsType: string, res: u8, cellOut: string, childrenOut: string,
                                       neighborOut: string, densify: bool)
    requires dggsType == ISEA3H || dggsType == IGEO7
    ensures var lines := Metafile(dggsType, res, cellOut, childrenOut, neighborOut, densify).0;
      lines[..6] + lines[9..] == CommonMetafile(res, cellOut, childrenOut, neighborOut, densify)
  {
    var lines := Metafile(dggsType, res, cellOut, childrenOut, neighborOut, densify).0;
    var header := CommonHeader(res);
    var tail := OutputLines(cellOut, childrenOut, neighborOut, densify);
    assert lines == header + TypeLines(dggsType).value + tail;
    assert lines[..6] == header;
    assert lines[9..] == tail;
  }

  // ---------------------------------------------------------------------
  // The bounding box

  const INVALID_BBOX: string := "Invalid bounding box format"

  /** `bbox.len() == 2 && bbox[0].len() == 2 && bbox[1].len() == 2`. */
  predicate WellShapedBbox(bbox: seq<seq<real>>) {
    |bbox| == 2 && |bbox[0]| == 2 && |bbox[1]| == 2
  }

  /** The ring lower-left, lower-right, upper-right, upper-left, lower-left. */
  function BboxRing(minX: real, minY: real, maxX: real, maxY: real): seq<Point> {
    [Point(minX, minY), Point(maxX, minY), Point(maxX, maxY), Point(minX, maxY), Point(minX, minY)]
  }

  /** `format!("{:.6} {:.6}", x, y)`, with `fmt` the `{:.6}` formatting of an `f64`. */
  function VertexLine(p: Point, fmt: real -> string): string {
    JoinSpaced([fmt(p.x), fmt(p.y)])
  }

  function VertexLines(ring: seq<Point>, fmt: real -> string): (lines: seq<string>)
    ensures |lines| == |ring|
    ensures forall i :: 0 <= i < |ring| ==> lines[i] == VertexLine(ring[i], fmt)
  {
    seq(|ring|, i requires 0 <= i < |ring| => VertexLine(ring[i], fmt))
  }

  /** The lines of the box file: the id "1" with the box centre, the ring, and two "END"s. */
  function BboxLines(bbox: seq<seq<real>>, fmt: real -> string): (r: Result<seq<string>>)
    ensures r.Err? <==> !WellShapedBbox(bbox)
    ensures r.Err? ==> r.error == INVALID_BBOX
    ensures r.Ok? ==>
              |r.value| == 8 && r.value[6] == "END" && r.value[7] == "END" &&
              r.value[1] == VertexLine(Point(bbox[0][0], bbox[0][1]), fmt) && r.value[5] == r.value[1]
    ensures r.Ok? ==>
              r.value[0] == JoinSpaced(["1", fmt((bbox[0][0] + bbox[1][0]) / 2.0), fmt((bbox[0][1] + bbox[1][1]) / 2.0)]) &&
              r.value[1..6] == VertexLines(BboxRing(bbox[0][0], bbox[0][1], bbox[1][0], bbox[1][1]), fmt)
    ensures r.Ok? ==>
              r.value[2] == VertexLine(Point(bbox[1][0], bbox[0][1]), fmt) &&
              r.value[3] == VertexLine(Point(bbox[1][0], bbox[1][1]), fmt) &&
              r.value[4] == VertexLine(Point(bbox[0][0], bbox[1][1]), fmt)
  {
    if !WellShapedBbox(bbox) then Err(INVALID_BBOX)
    else
      var (minX, minY, maxX, maxY) := (bbox[0][0], bbox[0][1], bbox[1][0], bbox[1][1]);
      Ok([JoinSpaced(["1", fmt((minX + maxX) / 2.0), fmt((minY + maxY) / 2.0)])]
         + VertexLines(BboxRing(minX, minY, maxX, maxY), fmt) + ["END", "END"])
  }

  /** `bbox_to_aigen`: a badly shaped box is rejected before anything is
      written; otherwise the header line, one line per vertex, then "END" twice. */
  method BboxToAigen(bbox: seq<seq<real>>, fmt: real -> string) returns (written: seq<string>, result: Result<()>)
    ensures !WellShapedBbox(bbox) ==> written == [] && result == Err(INVALID_BBOX)
    ensures WellShapedBbox(bbox) ==> result == Ok(()) && Ok(written) == BboxLines(bbox, fmt)
  {
    written := [];
    if |bbox| != 2 || |bbox[0]| != 2 || |bbox[1]| != 2 {
      return written, Err(INVALID_BBOX);
    }
    var minX, minY := bbox[0][0], bbox[0][1];
    var maxX, maxY := bbox[1][0], bbox[1][1];
    var vertices := [Point(minX, minY), Point(maxX, minY), Point(maxX, maxY), Point(minX, maxY), Point(minX, minY)];
    var centerX := (minX + maxX) / 2.0;
    var centerY := (minY + maxY) / 2.0;
    written := written + [JoinSpaced(["1", fmt(centerX), fmt(centerY)])];
    for i := 0 to |vertices|
      invariant written == [JoinSpaced(["1", fmt(centerX), fmt(centerY)])] + VertexLines(vertices[..i], fmt)
    {
      assert vertices[..i + 1] == vertices[..i] + [vertices[i]];
      written := written + [VertexLine(vertices[i], fmt)];
    }
    assert vertices[..|vertices|] == vertices == BboxRing(minX, minY, maxX, maxY);
    written := written + ["END"];
    written := written + ["END"];
    assert written == [JoinSpaced(["1", fmt(centerX), fmt(centerY)])] + VertexLines(vertices, fmt) + ["END", "END"];
    result := Ok(());
  }

  /** The box ring has five vertices, is already closed, walks the four
      corners along the axes, and is the ring `Polygon::new` would keep. */
  lemma BboxRingClosed(minX: real, minY: real, maxX: real, maxY: real)
    ensures var ring := BboxRing(minX, minY, maxX, maxY);
      |ring| == 5 && ring[0] == ring[4] && CloseRing(ring) == ring &&
      (forall i :: 0 <= i < 4 ==> ring[i].x == ring[i + 1].x || ring[i].y == ring[i + 1].y) &&
      (minX < maxX && minY < maxY ==> forall i, j :: 0 <= i < j < 4 ==> ring[i] != ring[j])
  {
  }

  /** The written centre is the middle of the box. */
  lemma BboxCenterInside(minX: real, minY: real, maxX: real, maxY: real)
    requires minX <= maxX && minY <= maxY
    ensures minX <= (minX + maxX) / 2.0 <= maxX && minY <= (minY + maxY) / 2.0 <= maxY
    ensures (minX + maxX) / 2.0 - minX == maxX - (minX + maxX) / 2.0
  {
  }

  /** When every formatted number is one word, the box file has the AIGEN
      shape `parse_aigen` reads: a three-token header, five coordinate pairs,
      and "END" lines. */
  lemma BboxFileIsAigen(bbox: seq<seq<real>>, fmt: real -> string)
    requires WellShapedBbox(bbox)
    requires forall x :: fmt(x) != [] && NoWhitespace(fmt(x))
    ensures var lines := BboxLines(bbox, fmt).value;
      |lines| == 8 &&
      Tokens(lines[0]) == ["1", fmt((bbox[0][0] + bbox[1][0]) / 2.0), fmt((bbox[0][1] + bbox[1][1]) / 2.0)] &&
      (forall i :: 1 <= i < 6 ==> |Tokens(lines[i])| == 2) &&
      Tokens(lines[6]) == ["END"] && Tokens(lines[7]) == ["END"]
  {
    var lines := BboxLines(bbox, fmt).value;
    var ring := BboxRing(bbox[0][0], bbox[0][1], bbox[1][0], bbox[1][1]);
    var header := ["1", fmt((bbox[0][0] + bbox[1][0]) / 2.0), fmt((bbox[0][1] + bbox[1][1]) / 2.0)];
    assert NoWhitespace("1");
    TokensOfSpaced(header);
    forall i | 1 <= i < 6
      ensures |Tokens(lines[i])| == 2
    {
      assert lines[i] == VertexLine(ring[i - 1], fmt);
      TokensOfSpaced([fmt(ring[i - 1].x), fmt(ring[i - 1].y)]);
    }
    assert NoWhitespace("END");
    TokensOfSpaced(["END"]);
  }
}
