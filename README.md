# geo-plegmata core, modelled in Dafny

This project models the discrete, non-trigonometric core of geo-plegmata, a
discrete global grid system library. It covers three groups of behaviour.

1. **Zone identifiers and resolution extraction.**
   - `ZoneID::new` validates the textual zone identifier. `Default` and `Display` are modelled too.
   - `extract_res_from_cellid`, `extract_res_from_z3` and `extract_res_from_z7` read the refinement level back out of an id.
   - `src/adapters/dggrid/isea3h.rs` and `src/adapters/dggrid.rs` hold the same three extract functions, so one model (`Resolution`) serves both files.
2. **The DGGRID adapter's text handling.**
   - `parse_aigen` is the line-driven AIGEN state machine. Both versions are modelled: the one that always prefixes the level, and the type-aware one.
   - `parse_children` and `parse_neighbors` rewrite the tokens of each line behind a zero-padded level prefix.
   - `assign_field` updates the cell list in place.
   - `dggrid_metafile` and `bbox_to_aigen` produce the lines these functions write.
3. **The integer tables and discrete decisions of the polyhedron and the layout.**
   - The icosahedron's 20 x 3 vertex-slot table.
   - The 5 x 6 rhombic layout, with its truncating `u8` face centre.
   - The sign-agreement loop of `is_point_in_triangle`.
   - The priority order of the sub-triangle choice in `triangles`.
   - The labelling of `triangle_arc_lengths`.

Modules, one per file:

- `Outcomes` (`outcomes.dfy`): `Option`, `Result` and `Run`. `Run` is the outcome of code that can panic.
- `RustStd` (`rust_std.dfy`): the parts of Rust's standard library the core relies on, written out:
  - `u8` with release-build wrapping addition;
  - the UTF-8 byte length `str::len` returns, and character boundaries;
  - the ASCII character classes;
  - `from_str_radix` and `parse::<u8>`, which take an optional `+`;
  - `{}` and `{:02}` formatting;
  - `str::lines` and `split_whitespace`;
  - `u64` `<<` and `leading_zeros`.
- `ZoneIds` (`zone_id.dfy`): `ZoneID` from `src/models/dggrid.rs`.
- `Resolution` (`resolution.dfy`): the `extract_res_*` functions.
- `Geometry` (`geometry.dfy`): `Position2D`, `Vector3D` and lattice triples, with `from_tuple` and the two `mid` functions.
- `Rhombic5x6` (`rhombic5x6.dfy`): `src/layout/rhombic5x6.rs`.
- `Icosahedron` (`icosahedron.dfy`): the modelled parts of `src/polyhedron/icosahedron.rs`.
- `DggridCells` (`dggrid_cells.dfy`): `CellGEO`, `IdArray`, and `CellsGEO` as a class whose `AssignField` method updates its cell list in place, like `assign_field`.
- `DggridParse` (`dggrid_parse.dfy`): the children and neighbours parsers, and the AIGEN parser.
  - The AIGEN parser is an imperative loop (`RunAigen`, with the loop body `AigenLine`) over the loop's local variables.
  - It is proved against the step function `AigenStep` and its fold `AigenRun`.
- `DggridFiles` (`dggrid_files.dfy`): the metafile and the bounding-box file. Each is a method that appends the lines it writes, proved against a function giving the whole file.

Conventions:

- A Rust panic (`expect`, `panic!`) is `Run.Panicked(message)`. A returned error is `Result.Err(message)`.
- `f64` values are exact reals.
- Floating-point operations enter as function parameters rather than being modelled:
  - `str::parse::<f64>`;
  - `{:.6}` formatting;
  - `angle_between_unit`;
  - `normalize`;
  - the layout's face centre inside `triangles`;
  - the membership tests `triangles` makes.
- Where the source adds `u8` values, the model uses the wrapping arithmetic of a release build. This applies to `res + 1` in `parse_children` and to the three-term sums in the rhombic `face_center`. Lemmas show that neither wraps on the inputs the library produces.

Behaviours kept as the code has them:

- `parse_aigen` panics on an id `ZoneID::new` rejects and on an unparsable number; `assign_field` panics on an unknown field. The model keeps these panics.
- `grid_size` returns `(5, 6)`: five columns (x) by six rows (y) of the table.
- `extract_res_from_cellid` sends IGEO7 ids to the Z3 reader. The Z7 reader is modelled on its own and is not dispatched.

## Model

| member | source | states |
|---|---|---|
| ZoneIds.NewZoneId | src/models/dggrid.rs:47-53 | succeeds exactly when the string has 16 or 18 characters, all ASCII letters or digits; the stored id is the input unchanged; every rejection carries the fixed message |
| ZoneIds.AllAsciiAlphanumeric | src/models/dggrid.rs:48 | true exactly when every character is an ASCII letter or digit |
| ZoneIds.SixteenZerosValid | src/models/dggrid.rs:56-61 | the default text of sixteen zeros passes the acceptance test of `new` |
| ZoneIds.DefaultZoneId | src/models/dggrid.rs:56-62 | the default id is one that `new` accepts and returns unchanged |
| ZoneIds.Display | src/models/dggrid.rs:70-74 | for an id whose text passes the check of `new`, the displayed text is accepted by `new` and gives back the same id |
| ZoneIds.DisplayRoundTrip | src/models/dggrid.rs:70-74 | displaying an id that `new` accepted gives back the original string |
| ZoneIds.WrongLengthRejected | src/models/dggrid.rs:48-51 | any length other than 16 or 18 is rejected whatever the characters |
| ZoneIds.NonAlphanumericRejected | src/models/dggrid.rs:48 | one character that is not an ASCII letter or digit makes `new` fail |
| ZoneIds.AcceptedIdsAreAscii | src/models/dggrid.rs:48 | on accepted ids the byte length `len()` tests equals the character count |
| Resolution.ExtractResFromZ3 | src/adapters/dggrid/isea3h.rs:292-300 | fewer than two bytes gives the too-short error. Otherwise it succeeds exactly when the id starts with two decimal digits or with `+` and a digit, and the level is their decimal value, at most 99. Any other prefix gives the invalid-prefix error. The same function is src/adapters/dggrid.rs:617-625 |
| Resolution.ExtractResFromZ7 | src/adapters/dggrid/isea3h.rs:302-322 | a one-byte id is level 0 and a two-byte id level 1, whatever it holds. A longer id succeeds exactly when it is a hexadecimal `u64` whose value shifted left by four is non-zero. The level then lies in 2..65, and the shifted value lies in [2^(65-level), 2^(66-level)), which means 2 plus its leading zeros. A longer id that fails carries the invalid-hex message when it does not parse and the no-resolution-mask message otherwise. The same function is src/adapters/dggrid.rs:627-647 |
| Resolution.ExtractResFromCellId | src/adapters/dggrid/isea3h.rs:282-289 | ISEA3H and IGEO7 both go to the Z3 reader; every other type is the unsupported-type error naming it (same function at src/adapters/dggrid.rs:607-614) |
| Resolution.TwoCharParse | src/adapters/dggrid/isea3h.rs:297-299 | a two-character string parses as `u8` exactly when it is two digits or `+` and a digit, with the corresponding decimal value |
| Resolution.Z3ReadsOnlyPrefix | src/adapters/dggrid/isea3h.rs:297-299 | for an id starting with two ASCII characters, the level depends on those two characters only |
| Resolution.ZeroPaddedPrefixRoundTrip | src/adapters/dggrid/isea3h.rs:292-300 | an id written as `{:02}` of a level up to 99 followed by any token reads back as that level |
| Resolution.Z3Examples | src/adapters/dggrid/isea3h.rs:292-300 | "05" and "+5" are level 5, "-1" and "a5" are errors, and "7" is too short |
| Resolution.Z7RejectsEmptyMask | src/adapters/dggrid/isea3h.rs:309-316 | a longer hexadecimal id whose value is a multiple of 2^60 loses every set bit in the shift and is the no-resolution-mask error |
| Resolution.Z7ExampleZero | src/adapters/dggrid/isea3h.rs:307-316 | "000" parses but has no resolution mask |
| Geometry.FromTuple | src/models/common.rs:14-16 | the position has the lattice point's coordinates |
| Geometry.Mid2D | src/models/common.rs:17-22 | the result is equidistant from both points on each axis |
| Geometry.Mid3D | src/models/vector_3d.rs:18-24 | the result is equidistant from both vectors on each axis (not normalised) |
| Geometry.MidpointsSymmetric | src/models/common.rs:17-22 | both midpoints ignore argument order and fix a repeated point |
| Rhombic5x6.WrappingSum3 | src/layout/rhombic5x6.rs:19-20 | the two `u8` additions of a release build give the true sum modulo 256 |
| Rhombic5x6.Third | src/layout/rhombic5x6.rs:19-20 | truncating division by three: `3q <= n < 3q + 3` |
| Rhombic5x6.FaceCenter | src/layout/rhombic5x6.rs:17-22 | each component is the truncated third of that axis's coordinate sum taken modulo 256 |
| Rhombic5x6.GridSize | src/layout/rhombic5x6.rs:24-26 | every lattice point of the table lies within the returned width and height, and the bound is tight: face 4 reaches the last column (x = 5) and face 19 the last row (y = 6) |
| Rhombic5x6.Vertices | src/layout/rhombic5x6.rs:27-29 | the table itself, in order: twenty faces. Each face is a unit right-angle corner: its first point shares y with the second and x with the third, one step away. Every face lies inside `grid_size` |
| Rhombic5x6.TableCentersDoNotWrap | src/layout/rhombic5x6.rs:33-58 | on every table face the sums are at most 17, so the centre is the exact truncated mean: each component is at most the mean and greater than the mean minus one |
| Rhombic5x6.FaceCenterOrderIndependent | src/layout/rhombic5x6.rs:17-22 | the centre does not depend on the order of the three points, even when the sums wrap |
| Rhombic5x6.FaceCenterExamples | src/layout/rhombic5x6.rs:17-22 | face 0 is centred at (0,0), face 15 at (0,1) |
| Rhombic5x6.WrappedCenterExample | src/layout/rhombic5x6.rs:19-20 | outside the table a sum of 300 wraps to 44, giving a component of 14 |
| Icosahedron.Indices | src/polyhedron/icosahedron.rs:36-38 | exactly the face table, so the lemmas stated over the table are facts about `indices()`: twenty triples, each of three distinct slots below the twelve vectors `unit_vectors` builds |
| Icosahedron.Faces | src/polyhedron/icosahedron.rs:32-34 | the face count is 20, the length of the index table |
| Icosahedron.ExpectedFacesAgree | src/polyhedron/icosahedron.rs:265-290 | the hand-made list of faces around each slot agrees with the table face by face |
| Icosahedron.SlotInFiveFaces | src/polyhedron/icosahedron.rs:265-290 | each of the twelve slots appears in exactly five faces |
| Icosahedron.ExpectedFacesFive | src/polyhedron/icosahedron.rs:265-290 | each hand-made list of faces around a slot has five members |
| Icosahedron.PolesOnlyInCaps | src/polyhedron/icosahedron.rs:265-290 | slot 0 (north pole) is in exactly faces 0-4, slot 11 (south pole) in exactly faces 15-19 |
| Icosahedron.IsPointInTriangle | src/polyhedron/icosahedron.rs:193-242 | false when the pre-check finds the first vertex beyond a right angle; otherwise true exactly when no two signed distances above the 1e-9 tolerance have opposite signs |
| Icosahedron.SignsAgreeIffOneSided | src/polyhedron/icosahedron.rs:228-241 | the sign test holds exactly when the significant distances are all positive or all negative |
| Icosahedron.TinyDistancesAgree | src/polyhedron/icosahedron.rs:231-232 | distances within the tolerance never make a point outside |
| Icosahedron.FaceCenter | src/polyhedron/icosahedron.rs:256-262 | three times each component is the sum of the three vectors' components |
| Icosahedron.FaceCenterSymmetric | src/polyhedron/icosahedron.rs:256-262 | the centre is symmetric in its arguments and fixes a repeated vector |
| Icosahedron.FaceCenterNotNormalised | src/polyhedron/icosahedron.rs:256-262 | the centre of the three unit axes has squared length 1/3, so it is not a unit vector |
| Icosahedron.Triangles | src/polyhedron/icosahedron.rs:101-157 | the v2-v3 third is tested first, then v3-v1, and v1-v2 is taken without a test. The result is the normalised midpoint of the chosen edge and the normalised 3D centre with the layout's 2D centre. The corner is fixed by a second test: in the v2-v3 third it is v3 when the point lies in (centre, midpoint, v3), else v2; in the v3-v1 third v3 on the same test, else v1; in the v1-v2 third v2 when the point lies in (centre, midpoint, v2), else v1; the 2D corner is always the matching layout vertex |
| Icosahedron.FirstThirdWins | src/polyhedron/icosahedron.rs:122-131 | once the first third contains the point, only the two tests of that third decide the result |
| Icosahedron.TriangleArcLengths | src/polyhedron/icosahedron.rs:171-186 | the triangle [mid, corner, centre] is read as B, A, C, and each of the six lengths is the angle between the corresponding pair |
| Icosahedron.ArcLengthsOfChosenTriangle | src/polyhedron/icosahedron.rs:150-156 | on the triangle `triangles` returns, A is a raw face vertex, C the normalised face centre and B a normalised edge midpoint |
| DggridCells.FindCell | src/adapters/dggrid/common.rs:222-226 | the index of the first cell that displays the id, or none when no cell does |
| DggridCells.AssignItem | src/adapters/dggrid/common.rs:221-231 | one item panics, with the "Unknown field" message, exactly when the field is not "children" or "neighbors", the item has an id and some cell displays it; otherwise the number of cells is kept |
| DggridCells.AssignAll | src/adapters/dggrid/common.rs:220-234 | with a known field nothing panics; any panic carries the "Unknown field" message; the number of cells is kept |
| DggridCells.AssignAllKeepsShape | src/adapters/dggrid/common.rs:219-231 | with "children" or "neighbors" nothing panics. The number and order of the cells are kept, and so are their ids, regions, centres and vertex counts, and the other field |
| DggridCells.AssignAllAppend | src/adapters/dggrid/common.rs:220-234 | processing `a + b` is processing `a` and then `b` on its result, stopping at a panic |
| DggridCells.AssignAllCharacterization | src/adapters/dggrid/common.rs:220-229 | with a known field each cell ends up with the array of the last item naming its id, if that cell is the first to display the id. Items without an id or without a matching cell change nothing |
| DggridCells.ExpectedCellsStep | src/adapters/dggrid/common.rs:221-231 | one more item moves that description from the earlier items to all of them |
| DggridCells.UnknownFieldPanics | src/adapters/dggrid/common.rs:222-230 | with any other field name the call panics, with the "Unknown field" message, exactly when some item's id matches a cell, and otherwise leaves the cells unchanged |
| DggridCells.CellsGeo.constructor | src/adapters/dggrid/common.rs:108 | the new cell list holds the given cells |
| DggridCells.CellsGeo.Find | src/adapters/dggrid/common.rs:222-226 | the linear search returns the first cell displaying the id |
| DggridCells.CellsGeo.AssignField | src/adapters/dggrid/common.rs:219-235 | updates the cells in place to what `AssignAll` gives, or reports its panic message (same function at src/adapters/dggrid.rs:204-220) |
| DggridParse.AdjacencyEntries | src/adapters/dggrid/common.rs:181-197 | at most one entry per line. Every entry has an id and an array, the id carries the id level's `{:02}` prefix, and every array element carries the array level's prefix |
| DggridParse.EntriesAppend | src/adapters/dggrid/common.rs:181-197 | the entries of consecutive blocks of lines are the blocks' entries in order |
| DggridParse.EntriesOfOneRow | src/adapters/dggrid/common.rs:183-195 | a line with tokens gives exactly one entry: the prefixed first token, and the prefixed remaining tokens in order. A line without tokens gives none |
| DggridParse.BlankRowIgnored | src/adapters/dggrid/common.rs:184-186 | removing a line without tokens does not change the result |
| DggridParse.BlankLineHasNoTokens | src/adapters/dggrid/common.rs:183-186 | a line of white space only has no tokens |
| DggridParse.PrefixedRoundTrip | src/adapters/dggrid/common.rs:188 | a string behind the `{:02}` prefix of a level up to 99 reads back as that level |
| DggridParse.ChildrenCarryResolution | src/adapters/dggrid/common.rs:180-198 | below level 99, every id `parse_children` writes reads back as the level, and every child as the level plus one |
| DggridParse.NeighborsCarryResolution | src/adapters/dggrid/common.rs:199-217 | up to level 99, every id and every neighbour `parse_neighbors` writes reads back as the level |
| DggridParse.ChildLevelWraps | src/adapters/dggrid/common.rs:192 | at level 255 the child level wraps to 0 and children are written with prefix "00" |
| DggridParse.HeaderId | src/adapters/dggrid.rs:240-246 | the id gets the zero-padded level in front for ISEA3H, IGEO7 and the always-prefixing parser, and is the token unchanged otherwise |
| DggridParse.CloseRing | src/adapters/dggrid/common.rs:147 | the ring keeps its points as a prefix, gains at most the closing point, and starts and ends at the same point |
| DggridParse.CloseRingIdempotent | src/adapters/dggrid/common.rs:147 | closing a ring twice is closing it once |
| DggridParse.HeaderLineStep | src/adapters/dggrid/common.rs:122-133 | a three-token line with an accepted id and two numbers sets the id and centre, nothing else |
| DggridParse.PairLineStep | src/adapters/dggrid/common.rs:135-144 | a two-number line appends the point and counts it |
| DggridParse.EndLineStep | src/adapters/dggrid/common.rs:146-162 | "END" after more than one point pushes one cell and resets the points and the count |
| DggridParse.RunFromRow | src/adapters/dggrid/common.rs:116-163 | the run from line k is that line's panic, or the run from line k+1 after that line's step |
| DggridParse.AigenLine | src/adapters/dggrid/common.rs:118-162 | the loop body on the local variables does exactly one step of the state machine, including its panics |
| DggridParse.RunAigen | src/adapters/dggrid/common.rs:106-165 | the loop over all lines returns the fresh cell list of the fold of the step over the lines' tokens, or the first panic |
| DggridParse.NonBlankRows | src/adapters/dggrid/common.rs:182-186 | exactly the rows that hold at least one token: every kept row is non-blank and comes from the input, and every non-blank input row is kept |
| DggridParse.NonBlankRowsAppend | src/adapters/dggrid/common.rs:181-186 | the filter keeps line order: filtering a concatenation is filtering each part in turn |
| DggridParse.MappedRows | src/adapters/dggrid/common.rs:187-195 | one entry per row |
| DggridParse.EntriesAreMappedRows | src/adapters/dggrid/common.rs:180-198 | reading the rows one at a time gives exactly the entries of the non-blank rows, in order |
| DggridParse.ParseChildren | src/adapters/dggrid/common.rs:180-198 | one entry per line with tokens, in order; its id is the two-digit level followed by the first token, and its array the remaining tokens, each behind the two-digit level plus one (wrapping as a `u8`) |
| DggridParse.ParseNeighbors | src/adapters/dggrid/common.rs:199-217 | one entry per line with tokens, in order; its id is the two-digit level followed by the first token, and its array the remaining tokens, each behind the same two-digit level |
| DggridParse.ParseAigen | src/adapters/dggrid/common.rs:106-165 | `parse_aigen` with every header id prefixed by the level: the cells of the fold, or its panic |
| DggridParse.ParseAigenTyped | src/adapters/dggrid.rs:222-287 | `parse_aigen` with the level prefixed for ISEA3H and IGEO7 only: the cells of the fold, or its panic |
| DggridParse.ClosedCellWellFormed | src/adapters/dggrid/common.rs:146-157 | a ring closed from at least two points with an accepted id makes a well-formed cell |
| DggridParse.AppendKeepsCellsGood | src/adapters/dggrid/common.rs:157 | pushing a well-formed cell keeps every cell well formed and carrying the level |
| DggridParse.HeaderKeepsGoodState | src/adapters/dggrid/common.rs:122-133 | a header keeps the loop invariant: its id passed `new` and carries the level when prefixed |
| DggridParse.PairKeepsGoodState | src/adapters/dggrid/common.rs:135-144 | a coordinate pair keeps the loop invariant (the count equals the number of points) |
| DggridParse.EndKeepsGoodState | src/adapters/dggrid/common.rs:146-162 | an emitting "END" keeps the loop invariant |
| DggridParse.AigenStepKeepsGoodState | src/adapters/dggrid/common.rs:122-162 | every line that does not panic keeps the loop invariant |
| DggridParse.AigenRunKeepsGoodState | src/adapters/dggrid/common.rs:116-163 | the whole loop keeps the invariant |
| DggridParse.AigenStep | src/adapters/dggrid/common.rs:122-162 | one line of `parse_aigen`: it panics only on a header or pair line, with the bad-id message only for a header whose prefixed id `new` rejects, otherwise with the bad-number message; a completed step keeps the earlier cells as a prefix and adds at most one; a line that is not a header keeps the id and centre |
| DggridParse.AigenRun | src/adapters/dggrid/common.rs:116-163 | the loop over the lines: any panic carries one of the two messages, and cells come out in file order, the cells held before the run being a prefix of those after it |
| DggridParse.ParsedCellsWellFormed | src/adapters/dggrid/common.rs:106-165 | every returned cell has an accepted id, no children or neighbours, at least one vertex, and a closed ring of `vertex_count + 1` or `+ 2` points. With a prefixing scheme up to level 99, every id is the default or reads back as the level |
| DggridParse.IdleLinesChangeNothing | src/adapters/dggrid/common.rs:146 | lines of other token counts, and an "END" after at most one point, leave the state unchanged, so a stray point carries into the next ring |
| DggridParse.EndEmitsCell | src/adapters/dggrid/common.rs:146-162 | an emitting "END" appends exactly one cell, built from the latest header and the points since the last cell, with `vertex_count` one less than the points read, and resets them |
| DggridParse.HeaderlessStep | src/adapters/dggrid/common.rs:135-162 | a line that is not a header keeps the id and centre and appends at most one cell labelled with them |
| DggridParse.HeaderlessRunKeepsLabel | src/adapters/dggrid/common.rs:116-163 | without header lines every cell carries the id and centre the run started from |
| DggridParse.HeaderlessCellsGetDefaults | src/adapters/dggrid/common.rs:107-112 | in a file with no header line, every cell gets the default id and centre (0, 0) |
| DggridParse.AigenRunAppend | src/adapters/dggrid/common.rs:116-163 | the loop over `a + b` is the loop over `a` followed by the loop over `b` from the state `a` leaves, and a panic in `a` is the result |
| DggridParse.CellsBeforeFirstHeaderGetDefaults | src/adapters/dggrid/common.rs:107-162 | in any file that parses, the cells emitted by the lines before the first header come first in the result and carry the default id and centre (0, 0) |
| DggridFiles.Metafile | src/adapters/dggrid.rs:92-149 | fails exactly when the type has no grid lines, having written only the six common lines; on success the six common lines, the three type lines and then the output lines, in that order |
| DggridFiles.CommonMetafile | src/adapters/dggrid/common.rs:42-83 | the six common lines come first, the sixth being `dggs_res_spec` and the level; 11 lines in all, or 12 with densification, the last of them then "densification 50" |
| DggridFiles.DggridMetafile | src/adapters/dggrid.rs:92-149 | the lines written, in order, and the result are those of `Metafile` |
| DggridFiles.MetafileFailsOnlyForOtherTypes | src/adapters/dggrid.rs:110-123 | the call fails exactly for types other than ISEA3H and IGEO7, with only the six header lines written; a success writes 14 lines, or 15 with densification |
| DggridFiles.MetafileHeaderFirst | src/adapters/dggrid.rs:103-108 | the six common lines come first, and the `dggs_res_spec` line reads back as the level |
| DggridFiles.MetafileTypeBlock | src/adapters/dggrid.rs:110-117 | ISEA3H is written with aperture 3 and Z3 addresses, IGEO7 with aperture 7 and Z7 |
| DggridFiles.FixedLinesAreNotDensification | src/adapters/dggrid.rs:103-143 | none of the fixed lines is a densification line |
| DggridFiles.DensificationIffDensify | src/adapters/dggrid.rs:144-146 | a densification line is written exactly when `densify` holds and the type is supported; it is the last line, "densification 50" |
| DggridFiles.MetafilesDifferOnlyInTypeLines | src/adapters/dggrid/common.rs:42-83 | the type-less metafile is the typed one without its three grid lines |
| DggridFiles.VertexLines | src/adapters/dggrid/common.rs:294-296 | one line per vertex, in ring order, each the `{:.6} {:.6}` line of that vertex |
| DggridFiles.BboxLines | src/adapters/dggrid/common.rs:268-302 | the invalid-box error exactly when the box is not two rows of two numbers; otherwise eight lines: the header "1" with the box centre, then the vertex lines of `BboxRing` (lower-left, lower-right, upper-right, upper-left, lower-left again), and two "END" lines |
| DggridFiles.BboxToAigen | src/adapters/dggrid/common.rs:268-302 | a box that is not two rows of two numbers is the invalid-box error with nothing written; otherwise the lines of `BboxLines` (same function at src/adapters/dggrid.rs:289-323) |
| DggridFiles.BboxRingClosed | src/adapters/dggrid/common.rs:280-286 | the ring has five vertices, its first equals its last, closing it changes nothing, its edges run along the axes, and its corners differ for a non-degenerate box |
| DggridFiles.BboxCenterInside | src/adapters/dggrid/common.rs:290-291 | the written centre lies inside the box, halfway between its sides |
| DggridFiles.BboxFileIsAigen | src/adapters/dggrid/common.rs:292-299 | the file has the shape the AIGEN parser reads: a three-token header, five two-token vertex lines and two "END" lines |
| RustStd.Utf8Length | src/models/dggrid.rs:48 | the byte length `len()` lies between the character count and four times it, and equals it exactly on ASCII text |
| RustStd.ZeroPad2RoundTrip | src/adapters/dggrid/common.rs:188 | `{:02}` of a number parses back as that number |
| RustStd.DecimalRoundTrip | src/adapters/dggrid.rs:108 | `{}` of a number parses back as that number |
| RustStd.TokensOfSpaced | src/adapters/dggrid/common.rs:292-295 | words without white space joined by single spaces split back into the same words |
| RustStd.WrappingAdd | src/adapters/dggrid/common.rs:192 | `u8` addition of a release build: the true sum below 256, the sum minus 256 otherwise |
| RustStd.ParseUnsigned | src/adapters/dggrid/isea3h.rs:297-299 | `str::parse::<u8>` and `from_str_radix`: a non-empty string of digits of the radix is read exactly when its value fits the maximum, and then gives that value; a leading `+` is skipped; every accepted string is ASCII (same reader at src/adapters/dggrid/isea3h.rs:307) |
| RustStd.Lines | src/adapters/dggrid/common.rs:116 | `str::lines`: no line holds a newline, a non-empty text has at least one line and no more lines than characters, and a text without newline is one line |
| RustStd.Tokens | src/adapters/dggrid/common.rs:118 | `split_whitespace`: every token is non-empty and free of white space, and a word without white space is its own single token |
| RustStd.Shl64 | src/adapters/dggrid/isea3h.rs:309 | `u64 <<`: the result is below 2^64 and agrees with the true product modulo 2^64, and equals it when no bit is shifted out |
| RustStd.LeadingZeros64 | src/adapters/dggrid/isea3h.rs:311 | the number of leading zero bits of a 64-bit value |

## Left out

- Process and file orchestration is I/O or process control and is not modelled:
  - `dggrid_setup`, with its random temporary names;
  - `dggrid_execute`, which runs DGGRID as a command;
  - `dggrid_cleanup`, `read_file`, `read_lines` and `print_file`;
  - the `DggrsPort` methods that chain these together;
  - `isea3h_metafile`, the DGGRID service and the factory.
- Creating a file and the I/O errors `writeln!` can return are not modelled. `DggridFiles.DggridMetafile` and `DggridFiles.BboxToAigen` return the lines they would write.
- Floating point is not modelled:
  - `f64` is modelled as exact reals, with no rounding, NaN or infinities;
  - `str::parse::<f64>` and `{:.6}` formatting are function parameters;
  - `unit_vectors`, `angle_between_unit`, `Vector3D::normalize`, planes and quaternions are trigonometry and enter as parameters or booleans;
  - the projections and the latitude conversion are left out for the same reason.
- The bit-packed `CellId` is not modelled: its implementation is not part of this model.
- `geo::Polygon` is modelled as its exterior ring of points, closed by `DggridParse.CloseRing`. The other parts of the `geo` types are not modelled.
- Resolution.ExtractResFromZ3: requires that byte 2 of the id is a character boundary. `id[..2]` panics on such ids, and that panic is not modelled.
- Resolution.ExtractResFromCellId: inherits that requirement for ISEA3H and IGEO7 ids.
- DggridParse.ParseChildren: `res + 1` is the wrapping `u8` addition of a release build; a debug build panics at level 255 instead.
- Rhombic5x6.FaceCenter: the `u8` sums wrap as in a release build; a debug build panics when a sum exceeds 255. This cannot happen on the layout's own table.
- DggridParse.AigenStep: `v_count` is a `u32` in the source and an unbounded natural here, so its overflow after four billion points is not modelled.
- DggridParse.AigenStep: the panic messages are those given to `expect`. The error value Rust appends to them is not modelled.
- Icosahedron.IsPointInTriangle: takes the outcome of the angle pre-check and the three signed plane distances as inputs, rather than computing them from vectors.
- Icosahedron.Triangles: `is_point_in_triangle` of the point, `normalize`, and the layout's `face_center` are parameters.
- The Z7 reader `extract_res_from_z7` is not called by `extract_res_from_cellid` in the source. It is modelled on its own.
- DggridFiles.DggridMetafile, DggridFiles.CommonMetafile: the `debug!` logging of the metafile path (src/adapters/dggrid.rs:101, src/adapters/dggrid/common.rs:50) is not modelled.
