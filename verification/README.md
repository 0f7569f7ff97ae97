# REV text reader, modelled in Dafny

This project models `parseREV`, the reader for the text ("REV") form of a
plant-design model export (`src/parserREV.cpp`). A REV file is a sequence
of chunks. Each chunk starts with a header: an id line (`HEAD`, `MODL`,
`CNTB`, `CNTE`, `PRIM`, `OBST`, `INSU`, `END:`) and two unsigned integers
that the reader drops. The body of the chunk follows. The reader keeps a
cursor into the buffer and a stack of open parents (File, then Model, then
nested Groups). It appends nodes and geometries to a store, and it stops at
the first error, recording one message in the store.

The model has four layers.

- `RevLexer` (`lexer.dfy`) covers the lexical helpers `skip_ws`, `read_u32`,
  `read_f32`, `read_line`, `to_string_trim`, the optional line ending
  skipped after a record, and `read_chunk_header_txt`. Each one is a
  reference function (`WsEnd`, `U32At`, `FloatAt`, `LineAt`, `Trim`,
  `EolSkip`, `HeaderAt`) plus a method with the reader's loop that is
  proved to compute it.
- `RevGeometry` and `RevDecode` (`geometry.dfy`, `decode.dfy`) cover the
  body of `parse_prim_txt`:
  - the kind;
  - the 3x4 matrix, read row by row and stored column-major;
  - the local and world bounding boxes;
  - one payload per kind, including the nested FacetGroup loops, which fill
    arrays of exactly the sizes their counts announce.
- `RevStore` and `RevChunks` (`store.dfy`, `chunks.dfy`) define the state
  between chunks: the cursor, the node table, the geometries and the stack.
  For every chunk kind, a function gives either the error the reader reports
  or the new state (`HeadAt`, `ModlAt`, `PrimAt`, `GroupAt`, `TopFrom`,
  `RevAt`). `RevChunkFacts` proves the behaviours the reader promises:
  - what a Group and a geometry inherit;
  - which chunk fails where;
  - how the top level ends.
- `RevParser` (`parser.dfy`) is the reader itself. A `Context` class holds
  the buffer, the store, the cursor, the stack and the logged warnings. It
  has one method per parse function of the source, and loops for the CNTB
  children and the top-level chunks. Each method is proved to leave exactly
  the state its chunk function gives and the store's error untouched, or,
  on failure, to leave that function's error in the store.
- `RevPrinted` (`printed.dfy`) proves that the reader reads back what a
  producer prints: right-aligned integers, integer-valued floats, lines
  ended by `\n` or `\r\n`, and chunk headers written as `"%s\n%6u%6u\n"`
  when the second number has at most five digits. `RevFacetsPrinted`
  (`facets.dfy`) does the same for a printed FacetGroup of one polygon and
  one contour.

Where the repository's prose and the code differ, the model follows the
code:
- A second MODL fails ("MODL without HEAD/File"). The open Model is not
  popped: `parse_modl_txt` returns before its own pop whenever a Model is
  on top (`SecondModlFails`).
- A CNTB whose children run to the end of the buffer closes without error.
  The child loop tests `p < end` before reading a header
  (`GroupClosesAtEnd`).
- The "non-empty stack at end" warning can never be logged. From any
  top-level state, the closing pops empty the stack
  (`FinishEmptiesStack`).
- A chunk header's trailing line ending is consumed only when it comes
  right after the second integer (`HeaderEolOnlyAdjacent`). A space before
  it leaves the line ending unread, and the next line read is the rest of
  the number line (`HeaderTrailingSpace`).

## Model

| member | source | states |
|---|---|---|
| RevLexer.WsEnd | src/parserREV.cpp:46-49 | the cursor after skipping: every skipped character is `isspace`, and it stops at the end or at the first non-space |
| RevLexer.SkipWs | src/parserREV.cpp:46-49 | the `skip_ws` loop stops exactly where `WsEnd` says |
| RevLexer.ScanDigits | src/parserREV.cpp:55-57 | the digit loop of `strtoul` in base 10 ends at the end of the digit run, with the run's decimal value |
| RevLexer.U32At | src/parserREV.cpp:51-62 | `read_u32` succeeds only with a value of at most 0xFFFFFFFF and a cursor strictly advanced within the buffer |
| RevLexer.ReadU32 | src/parserREV.cpp:51-62 | the method (whitespace, sign, digits, 64-bit `strtoul` result, range check) computes `U32At` |
| RevLexer.UnsignedLong | src/parserREV.cpp:56-58 | `strtoul`'s result always fits in 64 bits, and an unsigned in-range value is returned unchanged |
| RevLexer.U32AtUnsigned | src/parserREV.cpp:51-62 | without a sign, `read_u32` fails at the end of the buffer, when no digit follows the whitespace, and when the digits' value exceeds 0xFFFFFFFF; otherwise it yields that value and stops after the digits |
| RevLexer.U32AtSigned | src/parserREV.cpp:51-62 | `+` keeps the value (within the 32-bit bound); `-0` reads as 0; a negative non-zero value fails the 32-bit check |
| RevLexer.ScanMantissa | src/parserREV.cpp:69-70 | the integer and fraction digits `strtof` consumes give the value `MantissaAt` defines |
| RevLexer.ScanExponent | src/parserREV.cpp:69-70 | an exponent part is taken only when a digit follows `e`/`E` and its sign; otherwise the cursor stays |
| RevLexer.FloatAt | src/parserREV.cpp:64-74 | `read_f32` succeeds only with a cursor strictly advanced within the buffer |
| RevLexer.ReadF32 | src/parserREV.cpp:64-74 | the method computes `FloatAt` |
| RevLexer.NewlineFrom | src/parserREV.cpp:82 | the first `\n` at or after the cursor, or the end: no `\n` before it |
| RevLexer.LineAt | src/parserREV.cpp:78-88 | `read_line` fails if and only if the cursor is at the end; the line starts at the cursor and holds no `\n`; reading resumes just past a `\n` |
| RevLexer.ReadLine | src/parserREV.cpp:78-88 | the scanning loop computes `LineAt`, including the dropped trailing `\r` |
| RevLexer.EolSkip | src/parserREV.cpp:163-165 | the optional line ending after a record never moves the cursor back or past the end |
| RevLexer.SkipEol | src/parserREV.cpp:163-165 | the method computes `EolSkip` |
| RevLexer.BlanksEnd | src/parserREV.cpp:93 | the leading spaces and tabs end at the first other character |
| RevLexer.BlanksStart | src/parserREV.cpp:94 | the trailing spaces and tabs start just after the last other character |
| RevLexer.Trim | src/parserREV.cpp:90-96 | the trimmed id is no longer than the line, and it neither starts nor ends with a space or tab |
| RevLexer.TrimBlanks | src/parserREV.cpp:90-96 | the two trimming loops compute `Trim` |
| RevLexer.HeaderAt | src/parserREV.cpp:106-130 | a header yields its id and a cursor strictly advanced within the buffer |
| RevLexer.HeaderEolOnlyAdjacent | src/parserREV.cpp:119-126 | after the two integers, the header consumes a line ending only when `\r` or `\n` is the very next character; otherwise the cursor stays right after the second integer |
| RevLexer.HeaderTrailingSpace | src/parserREV.cpp:119-126 | for "HEAD\n 1 1 \nab" the header ends at index 9, on the trailing space, and the next line read there is " " |
| RevLexer.ReadChunkHeader | src/parserREV.cpp:106-130 | the method computes `HeaderAt` |
| RevGeometry.GeometryIdsDistinct | src/parserREV.cpp:146-149 | the three geometry ids are none of the structural chunk ids |
| RevGeometry.GeometryTypeOf | src/parserREV.cpp:146-149 | PRIM, OBST and INSU select Primitive, Obstruction and Insulation, each exactly for its own id; every other id selects none |
| RevGeometry.ColumnMajor | src/parserREV.cpp:167-171 | the stored matrix's entry (r, c) is the entry read at row r, column c |
| RevGeometry.TranslationLayout | src/parserREV.cpp:167-171 | a translation written as rows [1,0,0,tx],[0,1,0,ty],[0,0,1,tz] lands in storage slots 9..11 and moves the origin and a box by it |
| RevGeometry.IdentityKeepsBox | src/parserREV.cpp:183 | the identity matrix leaves a well-formed box unchanged |
| RevGeometry.PayloadOf | src/parserREV.cpp:185-269 | a fixed-size payload built from its floats has the kind asked for and gives those floats back in stream order |
| RevDecode.FloatsFrom | src/parserREV.cpp:156-166 | reading n more floats yields exactly n more, within the buffer |
| RevDecode.ReadFloats | src/parserREV.cpp:156-166 | the recursive reader computes `FloatsFrom` |
| RevDecode.RunsAt | src/parserREV.cpp:185-257 | records read in runs yield as many floats as the runs announce, or fail with the error of one of the runs |
| RevDecode.ReadRuns | src/parserREV.cpp:185-257 | the loop over the runs computes `RunsAt` |
| RevDecode.KindRuns | src/parserREV.cpp:185-268 | the records of each fixed-size kind hold as many floats as that kind stores |
| RevDecode.VertexAt | src/parserREV.cpp:294-304 | a vertex is three position floats and three normal floats; a missing one fails with "bad vertex" or "bad normal" |
| RevDecode.ReadVertex | src/parserREV.cpp:294-304 | the method computes `VertexAt` |
| RevDecode.PolygonsFrom | src/parserREV.cpp:278-307 | the polygons read are as many as announced, and each has as many contours as its count |
| RevDecode.ContoursFrom | src/parserREV.cpp:285-306 | the contours of an open polygon complete it, and the rest of the group follows |
| RevDecode.VerticesFrom | src/parserREV.cpp:294-305 | the vertices of an open contour complete it, with 3n floats in each array |
| RevDecode.PolygonStep | src/parserREV.cpp:278-283 | proof step (one unfolding of `PolygonsFrom`): one polygon (count, line ending, contours) joins those read, and reading resumes after it |
| RevDecode.ContourStep | src/parserREV.cpp:285-290 | proof step (one unfolding of `ContoursFrom`): one contour (count, line ending, vertices) joins the open polygon, and reading resumes after it |
| RevDecode.VertexStep | src/parserREV.cpp:294-305 | proof step (one unfolding of `VerticesFrom`): a failing vertex fails the whole group with its error; a good one extends both arrays by three floats |
| RevDecode.PutVertex | src/parserREV.cpp:297-302 | vertex i is stored at slots 3i..3i+2 of the position and normal arrays |
| RevDecode.NextVertex | src/parserREV.cpp:294-304 | on success, slots 3i..3i+2 of the position array hold the first record of `VertexAt` and those of the normal array its second, the cursor moves to where `VertexAt` ends, and the rest of `VerticesFrom` is unchanged; on failure both give its error |
| RevDecode.ReadVertices | src/parserREV.cpp:291-305 | the inner loop fills arrays of exactly 3n floats each, and agrees with `VerticesFrom` on success and on failure |
| RevDecode.ReadContours | src/parserREV.cpp:284-306 | the middle loop reads exactly n contours, each sized by its count, and agrees with `ContoursFrom` |
| RevDecode.ReadPolygons | src/parserREV.cpp:277-307 | the outer loop computes `PolygonsFrom` |
| RevDecode.FacetGroupAt | src/parserREV.cpp:271-309 | a decoded facet group is well sized: every array holds exactly as many entries as its count says |
| RevDecode.ReadFacetGroup | src/parserREV.cpp:271-309 | the method computes `FacetGroupAt` |
| RevDecode.PayloadAt | src/parserREV.cpp:185-313 | a payload decoded for a kind has that kind and is well sized; kind 9 fails as unsupported; kinds 0 and above 11 fail, quoting the kind |
| RevDecode.DecodePayload | src/parserREV.cpp:185-313 | the dispatch on the kind computes `PayloadAt` |
| RevDecode.PrimBodyAt | src/parserREV.cpp:143-313 | a decoded body has the type its chunk id names, a 12-entry matrix, a world box that is the local box under that matrix, and a well-sized payload of the kind read; an unknown id fails, quoting the id |
| RevDecode.DecodePrimBody | src/parserREV.cpp:143-313 | the method computes `PrimBodyAt` |
| RevDecode.UnsupportedKindsFail | src/parserREV.cpp:260-262 | once the matrix and box are read, kind 9 fails as unsupported, and kinds 0 and above 11 fail as unknown |
| RevDecode.FixedPayloadFromStream | src/parserREV.cpp:185-258 | a fixed-size payload stores exactly the floats its records read, in stream order, as many as its kind reads |
| RevDecode.MissingValueFails | src/parserREV.cpp:185-258 | a missing float in a fixed-size payload fails with the error of the record it belongs to |
| RevDecode.PrimMatrixTransposed | src/parserREV.cpp:154-183 | the stored matrix is the transpose of the twelve floats read, and the local box is the six floats read after them |
| RevStore.Store.NewNode | src/parserREV.cpp:328 | appends one node with the given parent and fields, and changes nothing else |
| RevStore.Store.Fill | src/parserREV.cpp:338 | sets one node's fields and keeps its parent and kind |
| RevStore.Store.NewGeometry | src/parserREV.cpp:143 | appends one empty geometry attached to the given group |
| RevStore.Store.SetBody | src/parserREV.cpp:168-183 | stores the decoded body of one geometry |
| RevStore.Store.SetError | src/parserREV.cpp:28-44 | the last error set is the one the store holds |
| RevStore.AppendKeepsTree | src/parserREV.cpp:328 | appending a correctly linked node keeps every link valid |
| RevStore.FillKeepsTree | src/parserREV.cpp:338 | filling in fields keeps every link valid and every geometry on a Group |
| RevChunks.PopKeeps | src/parserREV.cpp:372 | closing the innermost parent leaves the stack a path down the tree |
| RevChunks.PushKeeps | src/parserREV.cpp:353 | pushing a new child of the innermost parent leaves the stack a path |
| RevChunks.HeadAt | src/parserREV.cpp:402-427 | HEAD opens exactly one File node, as a root, which becomes the whole stack, and moves the cursor forward |
| RevChunks.ModlAt | src/parserREV.cpp:376-400 | MODL succeeds only with the File on top; it pushes exactly one new Model node |
| RevChunks.PrimAt | src/parserREV.cpp:132-317 | a primitive succeeds only with a Group on top; it adds exactly one geometry and leaves nodes and stack unchanged |
| RevChunks.Attach | src/parserREV.cpp:143-152 | the geometry is appended to the Group on top, and the state stays consistent |
| RevChunks.InheritedTransparency | src/parserREV.cpp:330-333 | a new Group starts with its parent's transparency when the parent is a Group, and with 0 otherwise |
| RevChunks.Vec3At | src/parserREV.cpp:341-343 | three floats read in a row, with the cursor strictly advanced |
| RevChunks.ReadVec3 | src/parserREV.cpp:341-343 | the method computes `Vec3At` |
| RevChunks.Metres | src/parserREV.cpp:344-346 | each coordinate of the stored translation, times 1000, is the coordinate read in millimetres |
| RevChunks.GroupPreambleAt | src/parserREV.cpp:335-351 | the name line, translation and material of a CNTB are read with the cursor strictly advanced |
| RevChunks.ReadGroupPreamble | src/parserREV.cpp:335-351 | the method computes `GroupPreambleAt` |
| RevChunks.GroupAt | src/parserREV.cpp:319-374 | CNTB succeeds only with a Model or Group on top; it adds at least its own Group and leaves the stack as it found it |
| RevChunks.GroupCloses | src/parserREV.cpp:372 | popping the pushed Group after its children restores the caller's stack |
| RevChunks.Opened | src/parserREV.cpp:327-353 | after its fields, the new Group hangs under the node on top and is pushed |
| RevChunks.ChildrenFrom | src/parserREV.cpp:356-370 | reading the children never changes the stack they started with |
| RevChunks.ChildAt | src/parserREV.cpp:362-369 | a child chunk moves the cursor forward and leaves the stack unchanged |
| RevChunks.KeepsTop | src/parserREV.cpp:372 | proof step (frame of the chunk functions): appending nodes keeps the kind of the node on top of an unchanged stack |
| RevChunks.GroupAtSteps | src/parserREV.cpp:327-373 | proof step (one unfolding of `GroupAt`): CNTB is its fields, then its children, then the pop |
| RevChunks.ChildrenStops | src/parserREV.cpp:356-361 | proof step (one unfolding of `ChildrenFrom`): the children end without error at the end of the buffer; a header that cannot be read fails with "unexpected EOF"; CNTE ends the group |
| RevChunks.ChildrenStep | src/parserREV.cpp:362-369 | proof step (one unfolding of `ChildrenFrom`): a child other than CNTE either fails the group with its error or is followed by the rest of the children |
| RevChunks.ChildKinds | src/parserREV.cpp:362-369 | proof step (one unfolding of `ChildAt`): CNTB recurses, PRIM/OBST/INSU read a geometry, and any other id fails, naming the id |
| RevChunks.FinishEmptiesStack | src/parserREV.cpp:476-480 | from a top-level state, the closing pops empty the stack and add no warning |
| RevChunks.PopIf | src/parserREV.cpp:476-477 | pops the node on top exactly when it has the given kind, and changes nothing but the stack |
| RevChunks.Finish | src/parserREV.cpp:475-480 | the closing pops keep the cursor, nodes and geometries and remove at most two entries from the top of the stack; exactly one "non-empty stack" warning is added, and only when the stack is not empty after them |
| RevChunks.TopFrom | src/parserREV.cpp:451-481 | a successful file ends with an empty stack, keeps the warnings logged before, and adds only stray-CNTE warnings |
| RevChunks.EndAt | src/parserREV.cpp:454-457 | END: always succeeds, empties the stack and adds no warning |
| RevChunks.RootChunkAt | src/parserREV.cpp:458-472 | a top-level chunk leaves a top-level state (File, maybe Model) and adds only stray-CNTE warnings |
| RevChunks.TopStops | src/parserREV.cpp:452-457 | proof step (one unfolding of `TopFrom`): the top level ends at the end of the buffer and at END:; a header that cannot be read fails with "unexpected EOF" |
| RevChunks.RootKinds | src/parserREV.cpp:458-472 | proof step (one unfolding of `RootChunkAt`): MODL and CNTB dispatch to their parsers; CNTE only warns; PRIM/OBST/INSU fail as outside any group; any other id fails, named |
| RevChunks.RevAt | src/parserREV.cpp:431-484 | a parsed file appends a root File node as its first new node to the store and keeps the tree well linked with every geometry on a Group; the stack ends empty and the only warnings are stray CNTEs |
| RevChunkFacts.GroupNodeFields | src/parserREV.cpp:327-346 | the new Group hangs under the node on top, is named by the line after the header, holds the translation scaled by 0.001, and has its parent's transparency when the parent is a Group (0 under a Model) |
| RevChunkFacts.PreambleFields | src/parserREV.cpp:335-346 | the name is the line read, and the translation is the three floats read, times 0.001 |
| RevChunkFacts.GroupAtNewNode | src/parserREV.cpp:327-353 | the node a successful CNTB opens is built from its fields, under the node on top |
| RevChunkFacts.GroupClosesAtEnd | src/parserREV.cpp:356-373 | a CNTB whose fields reach the end of the buffer succeeds with no children |
| RevChunkFacts.UnknownChildFails | src/parserREV.cpp:366-368 | inside a Group, an id other than CNTE, CNTB, PRIM, OBST or INSU fails, naming the id |
| RevChunkFacts.PrimGeometryFields | src/parserREV.cpp:143-152 | the new geometry belongs to the Group on top, has that Group's transparency and the type its id names, and its payload's kind is the kind read |
| RevChunkFacts.HeadFields | src/parserREV.cpp:409-425 | a successful HEAD reads four lines in a row and adds one File node, with no parent, holding them as info, note, date and user, an empty encoding and the caller's path; that node is the whole stack and the cursor is after the fourth line |
| RevChunkFacts.ModlFields | src/parserREV.cpp:389-398 | a successful MODL reads two lines in a row and adds one Model node under the File on top, holding them as project and name, and pushes it |
| RevChunkFacts.SecondModlFails | src/parserREV.cpp:379-387 | after one MODL, a second one fails because a Model, not the File, is on top |
| RevChunkFacts.HeadNeedsEmptyStack | src/parserREV.cpp:405-408 | HEAD on a non-empty stack fails |
| RevChunkFacts.FileStartsWithHead | src/parserREV.cpp:445-448 | an unreadable first header fails as an empty or invalid file; a first chunk other than HEAD fails, quoting its id |
| RevChunkFacts.TopStep | src/parserREV.cpp:452-472 | proof step (one unfolding of `TopFrom`): one top-level chunk other than END: fails with its error or is followed by the rest of the file |
| RevChunkFacts.StrayCnteWarns | src/parserREV.cpp:462-464 | a CNTE at the top level only logs a warning, and reading goes on after it |
| RevChunkFacts.RootGeometryFails | src/parserREV.cpp:465-468 | PRIM, OBST or INSU at the top level fails, naming the chunk |
| RevChunkFacts.UnknownRootChunkFails | src/parserREV.cpp:469-471 | an unknown id at the top level fails, naming it |
| RevChunkFacts.EndStopsReading | src/parserREV.cpp:454-457 | after END: nothing more is read: the result is the state at END: with the Model and File closed |
| RevChunkFacts.GroupAddsNoFile | src/parserREV.cpp:319-374 | a CNTB adds no File node, its own Group and everything under it included |
| RevChunkFacts.ChildrenAddNoFile | src/parserREV.cpp:356-370 | the children of a Group add no File node |
| RevChunkFacts.ChildAddsNoFile | src/parserREV.cpp:362-369 | one child of a Group adds no File node |
| RevChunkFacts.RootChunkAddsNoFile | src/parserREV.cpp:458-472 | one top-level chunk other than END: adds no File node |
| RevChunkFacts.TopAddsNoFile | src/parserREV.cpp:451-473 | the top-level chunks after HEAD add no File node |
| RevChunkFacts.RevAtOneFile | src/parserREV.cpp:431-484 | a file read successfully adds exactly one File node, the first node it adds; no later node it adds is a File |
| RevPrinted.DecValueOfDecimal | src/parserREV.cpp:56 | a number printed in decimal has that value as digits |
| RevPrinted.U32AtPrinted | src/parserREV.cpp:51-62 | a number printed after spaces reads back with `read_u32` as itself, ending after its digits, when it is at most 0xFFFFFFFF, and fails when it is larger |
| RevPrinted.FloatAtPrinted | src/parserREV.cpp:64-74 | an integer printed after spaces reads back with `read_f32` as the same real |
| RevPrinted.LineRoundTrip | src/parserREV.cpp:78-88 | a line ended by `\n` or `\r\n` reads back as exactly its text, and reading resumes after the ending |
| RevPrinted.TrimPadded | src/parserREV.cpp:90-96 | trimming removes exactly the spaces and tabs around a text |
| RevPrinted.HeaderRoundTrip | src/parserREV.cpp:103-130 | a header printed as `"%s\n%6u%6u\n"`, when the second number has at most five digits, reads back as its id, with the cursor just after it |
| RevFacetsPrinted.Rec3Read | src/parserREV.cpp:296-299 | a printed record " x y z\n" reads back with three `read_f32` calls as its three numbers, and its line feed is skipped |
| RevFacetsPrinted.CountRead | src/parserREV.cpp:288-289 | a printed count line reads back with `read_u32` as the count, and its line feed is skipped |
| RevFacetsPrinted.VertexRead | src/parserREV.cpp:294-304 | a printed vertex reads back with its position first and its normal second, and reading goes on right after its two records |
| RevFacetsPrinted.VerticesRead | src/parserREV.cpp:294-305 | the printed vertices of a contour read back in order: their positions and normals are appended to the arrays, and reading goes on right after them |
| RevFacetsPrinted.FacetGroupRead | src/parserREV.cpp:271-309 | a printed FacetGroup of one polygon with one contour reads back as exactly that group, ending right after its text |
| RevFacetsPrinted.FacetGroupLayout | src/parserREV.cpp:294-304 | in that group, every vertex i has the position and the normal printed for it at slots 3i..3i+2 |
| RevFacetsPrinted.TwoVertexGroup | src/parserREV.cpp:271-309 | "1", "1", "2" and four records read back as one polygon with one contour of two vertices, with positions and normals equal to the printed numbers in order |
| RevParser.Context.constructor | src/parserREV.cpp:433-443 | a new reader starts at the start of the buffer, with an empty stack and no warnings |
| RevParser.Context.ParseHead | src/parserREV.cpp:402-427 | `parse_head_txt` leaves exactly the state `HeadAt` gives, or that function's error in the store |
| RevParser.Context.ParseModl | src/parserREV.cpp:376-400 | `parse_modl_txt` leaves exactly the state `ModlAt` gives, or its error |
| RevParser.Context.ParsePrim | src/parserREV.cpp:132-317 | `parse_prim_txt` leaves exactly the state `PrimAt` gives, or its error, and keeps the stack |
| RevParser.Context.OpenGroup | src/parserREV.cpp:327-353 | the first half of `parse_cntb_txt` appends and pushes the Group that `GroupPreambleAt`'s fields describe, or records its error |
| RevParser.Context.ParseCntb | src/parserREV.cpp:319-374 | `parse_cntb_txt` leaves exactly the state `GroupAt` gives, or its error |
| RevParser.Context.PopTop | src/parserREV.cpp:372 | pops the Group and changes nothing else |
| RevParser.Context.ParseChildren | src/parserREV.cpp:356-370 | the children loop computes `ChildrenFrom`, stopping at CNTE or the end of the buffer |
| RevParser.Context.NextChild | src/parserREV.cpp:357-369 | one iteration of the children loop fails with the error `ChildrenFrom` gives, closes the Group at CNTE with the state `ChildrenFrom` gives, or moves the cursor forward and leaves the rest of `ChildrenFrom` unchanged |
| RevParser.Context.OneChild | src/parserREV.cpp:362-369 | a child other than CNTE fails with the error `ChildrenFrom` gives, or keeps the Group on top and the stack, moves the cursor forward and leaves the rest of `ChildrenFrom` unchanged |
| RevParser.Context.ParseChild | src/parserREV.cpp:362-369 | the dispatch on a child's id computes `ChildAt` |
| RevParser.Context.ParseTop | src/parserREV.cpp:451-481 | the top-level loop and the closing pops compute `TopFrom` |
| RevParser.Context.EndChunk | src/parserREV.cpp:454-457 | END: pops an open Model, and `TopFrom` ends right there |
| RevParser.Context.OneRootChunk | src/parserREV.cpp:458-472 | one iteration of the top-level loop keeps a top-level state and leaves the rest of `TopFrom` unchanged |
| RevParser.Context.ParseRootChunk | src/parserREV.cpp:458-472 | the dispatch on a top-level id computes `RootChunkAt` |
| RevParser.Context.CloseUp | src/parserREV.cpp:475-480 | the closing pops and the final warning are what `Finish` gives |
| RevParser.Context.PopIfOnTop | src/parserREV.cpp:456 | pops the node on top only when it has the given kind |
| RevParser.Context.Advance | src/parserREV.cpp:447 | moving the cursor changes nothing else: the reader's state is the old one with the new cursor, and the stack and warnings stay |
| RevParser.ParseRev | src/parserREV.cpp:431-484 | `parseREV` returns true exactly when `RevAt` succeeds; the store then holds what `RevAt` built; on failure the store holds `RevAt`'s error; on success the store's error is untouched |

## Left out

- Floating point: floats are modelled as exact reals, so `strtof` rounding to binary32 is not modelled, and neither is the binary32 rounding of `* 0.001f`.
- RevLexer.FloatAt: accepts only the decimal syntax of `strtof` (sign, digits, optional fraction, optional exponent). The `inf` and `nan` forms, which `strtof` also accepts, fail in the model. A hexadecimal float such as "0x1A" reads as 0.0 in the model, with the cursor left on the `x`, where `strtof` reads 26.
- RevLexer.UnsignedLong: `unsigned long` is taken to be 64 bits wide. Where it is 32 bits, an overflowing or negated value is not rejected by the range check in the same way.
- Reads past the end: `strtoul` and `strtof` read a NUL-terminated string and may look past `end`. The model never reads past the buffer.
- RevGeometry.TransformBox: `transform(M_3x4, bboxLocal)` comes from `LinAlgOps.h`, which is not part of this model. The stand-in takes the box spanned by the eight transformed corners. Only its use on the decoded matrix and box is modelled.
- The default transparency of a Group under a Model comes from `Store.h`, which is not part of this model. It is taken to be 0.
- Store internals are not modelled: string interning, arena allocation, `updateCounts` (line 482), and the colour fields computed downstream. Nodes and geometries are plain values in append-only sequences.
- Error messages are datatype constructors carrying the values they quote. The `vsnprintf` formatting, truncation to the 1024-byte buffer, and the fallback message are not modelled. The store is never null in the model, so the guard of `set_error` (line 30) is not modelled. In the source, a caller passing a null `store` reaches that guard when the first header fails (line 447), and no error is recorded.
- The logger is a list of warnings. Severity and message text are not modelled.
- Failure paths: on failure, only the store's error is specified. What the methods leave in the cursor, stack, warnings and partly filled nodes is not stated, because every failure ends the parse.
- `ExportHsf.cpp` and `ExportHsf.h` are not part of this model.
