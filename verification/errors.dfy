/**
 * The reader's diagnostics. A fatal error is the first condition that makes
 * a parse function return false; each constructor stands for one message
 * the reader formats, and carries the value the message quotes (the chunk
 * id, the matrix row, the primitive kind). Warnings go to the caller's
 * logger and never stop the parse.
 */
module RevErrors {

  datatype Error =
    // top level
    | EmptyOrInvalidFile
    | ExpectedHead(got: string)
    | UnexpectedEofAtRoot
    | GeometryOutsideAnyGroup(id: string)
    | UnrecognizedChunk(id: string)
    // HEAD
    | HeadWithNonEmptyStack
    | HeadMissingInfo
    | HeadMissingNote
    | HeadMissingDate
    | HeadMissingUser
    // MODL
    | ModlWithoutFile
    | ModlMissingProject
    | ModlMissingName
    // CNTB
    | CntbWithoutParent
    | CntbMissingName
    | CntbMissingTranslation
    | CntbMissingMaterial
    | CntbUnexpectedEof
    | CntbUnexpectedChunk(id: string)
    // PRIM / OBST / INSU preamble
    | PrimOutsideGroup
    | PrimMissingKind
    | UnknownGeometryChunkId(id: string)
    | PrimMissingMatrixRow(row: nat)
    | PrimMissingBBoxLocal
    // payloads
    | PyramidBadBottomTop
    | PyramidBadOffsetHeight
    | BoxBadLengths
    | RectangularTorusBadParams
    | CircularTorusBadParams
    | EllipticalDishBadParams
    | SphericalDishBadParams
    | SnoutBadFirstLine
    | SnoutBadShear
    | CylinderBadParams
    | SphereNotSupported
    | LineBadParams
    | FacetGroupMissingPolygons
    | FacetGroupMissingContours
    | FacetGroupMissingVertices
    | FacetGroupBadVertex
    | FacetGroupBadNormal
    | UnknownPrimitiveKind(kind: nat)

  datatype Warning =
    | UnexpectedCnteAtRoot
    | NonEmptyStackAtEnd
}
