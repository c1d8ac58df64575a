/**
 Catalog pages: references, frames, page geometry and verification. A frame is the byte string
 of a stored page, either the canonical encoding of a page or any other bytes. A hash is
 ideal: it is the frame that was hashed.
 */
module Pages {
  import opened Base

  const PAGE_BYTES: nat := 65536
  const LEAF_BYTES: nat := 61440
  const FANOUT: nat := 128
  const MAX_HEIGHT: nat := 3
  const MAX_STREAM_BYTES: nat := 17179869184
  const MAX_PAGES: nat := 1_000_000

  datatype CatalogError = Bounds | InvalidPage

  /** Identifiers are numbers; the nil root id is zero. */
  datatype Scope = Dataset(guildId: nat, owner: nat, protectedRootId: nat) | Guild(guildId: nat)

  datatype Section = FileMetadata | GitGraph | SectorReferences | PackingSection | CodingSection | CheckpointSection

  datatype PageHash = PageHash(frame: Frame)

  datatype PageRef = PageRef(hash: PageHash, encodedLen: nat, height: nat, byteLen: nat, pages: nat)

  datatype Body = Leaf(bytes: Bytes) | Index(children: seq<PageRef>)

  datatype Page = Page(formatVersion: nat, scope: Scope, section: Section, height: nat, body: Body)

  /** Bytes that are no canonical encoding may still decode. */
  datatype Frame = Canonical(page: Page) | Other(length: nat, tag: nat, decoded: Option<Page>)

  /** What pages of one stream have in common. */
  datatype Context = Context(scope: Scope, section: Section) {
    predicate Valid() {
      match scope
      case Dataset(_, _, root) => root != 0 && (section.FileMetadata? || section.GitGraph? || section.SectorReferences?)
      case Guild(_) => section.PackingSection? || section.CodingSection? || section.CheckpointSection?
    }
  }

  // ---------------------------------------------------------------- encoded size

  /** Bytes of a variable-length integer: seven bits each. */
  function VarintSize(n: nat): (r: nat)
    ensures r >= 1
  {
    if n < 128 then 1 else 1 + VarintSize(n / 128)
  }

  lemma VarintBound(n: nat)
    ensures n < 128 ==> VarintSize(n) == 1
    ensures n < 16384 ==> VarintSize(n) <= 2
    ensures n < 2097152 ==> VarintSize(n) <= 3
    ensures n < 34359738368 ==> VarintSize(n) <= 5
  {
    if n >= 128 {
      assert VarintSize(n) == 1 + VarintSize(n / 128);
      if n / 128 >= 128 {
        assert VarintSize(n / 128) == 1 + VarintSize(n / 128 / 128);
        if n / 128 / 128 >= 128 {
          var m := n / 128 / 128 / 128;
          assert VarintSize(n / 128 / 128) == 1 + VarintSize(m);
          if m >= 128 { assert VarintSize(m) == 1 + VarintSize(m / 128); }
        }
      }
    }
  }

  function RefSize(r: PageRef): nat {
    32 + VarintSize(r.encodedLen) + 1 + VarintSize(r.byteLen) + VarintSize(r.pages)
  }

  function RefsSize(refs: seq<PageRef>): nat {
    if refs == [] then 0 else RefsSize(refs[..|refs| - 1]) + RefSize(refs[|refs| - 1])
  }

  /** The canonical size of a page. */
  function PageSize(page: Page): nat {
    VarintSize(page.formatVersion)
    + (if page.scope.Dataset? then 1 + 32 + 32 + 17 else 1 + 32)
    + 1 + 1 + 1
    + match page.body
      case Leaf(bytes) => VarintSize(|bytes|) + |bytes|
      case Index(children) => VarintSize(|children|) + RefsSize(children)
  }

  function FrameSize(frame: Frame): nat {
    match frame
    case Canonical(page) => PageSize(page)
    case Other(length, _, _) => length
  }

  // ---------------------------------------------------------------- geometry

  function SumBytes(refs: seq<PageRef>): nat {
    if refs == [] then 0 else SumBytes(refs[..|refs| - 1]) + refs[|refs| - 1].byteLen
  }

  function SumPages(refs: seq<PageRef>): nat {
    if refs == [] then 0 else SumPages(refs[..|refs| - 1]) + refs[|refs| - 1].pages
  }

  predicate RefOk(r: PageRef) {
    && 0 < r.encodedLen <= PAGE_BYTES && r.height <= MAX_HEIGHT && r.byteLen <= MAX_STREAM_BYTES
    && 0 < r.pages <= MAX_PAGES
    && (r.height == 0 ==> r.pages == 1 && r.byteLen <= LEAF_BYTES)
    && (r.height > 0 ==> r.byteLen != 0 && r.pages > 1)
  }

  predicate ChildOk(height: nat, child: PageRef) {
    RefOk(child) && child.height + 1 == height && child.byteLen != 0
  }

  /** The page's own geometry: what `counts` accepts. */
  predicate CountsOk(page: Page) {
    && Context(page.scope, page.section).Valid() && page.formatVersion == 1 && page.height <= MAX_HEIGHT
    && match page.body
       case Leaf(bytes) => page.height == 0 && |bytes| <= LEAF_BYTES
       case Index(children) =>
         && page.height > 0 && 0 < |children| <= FANOUT
         && (forall i :: 0 <= i < |children| ==> ChildOk(page.height, children[i]))
         && SumBytes(children) <= MAX_STREAM_BYTES && 1 + SumPages(children) <= MAX_PAGES
  }

  /** The first child that is not acceptable decides the error; without one, a total is too large. */
  function ChildrenError(height: nat, children: seq<PageRef>): CatalogError {
    if children == [] then Bounds
    else if !RefOk(children[0]) then Bounds
    else if !ChildOk(height, children[0]) then InvalidPage
    else ChildrenError(height, children[1..])
  }

  function CountsError(page: Page): CatalogError {
    if Context(page.scope, page.section).Valid() && page.formatVersion == 1 && 0 < page.height <= MAX_HEIGHT
       && page.body.Index? && 0 < |page.body.children| <= FANOUT
    then ChildrenError(page.height, page.body.children)
    else InvalidPage
  }

  function BodyBytes(body: Body): nat {
    match body
    case Leaf(bytes) => |bytes|
    case Index(children) => SumBytes(children)
  }

  function BodyPages(body: Body): nat {
    match body
    case Leaf(_) => 1
    case Index(children) => 1 + SumPages(children)
  }

  /** The reference to a page. */
  function RefTo(page: Page): PageRef {
    PageRef(PageHash(Canonical(page)), PageSize(page), page.height, BodyBytes(page.body), BodyPages(page.body))
  }

  predicate Encodable(page: Page) {
    CountsOk(page) && PageSize(page) <= PAGE_BYTES
  }

  // ---------------------------------------------------------------- verification

  function Decode(frame: Frame): Option<Page> {
    match frame
    case Canonical(page) => Some(page)
    case Other(_, _, decoded) => decoded
  }

  /** Checks fetched bytes against an authenticated reference. */
  function VerifyPage(expected: PageRef, cx: Context, frame: Frame): Result<Page, CatalogError> {
    if !RefOk(expected) then Err(Bounds)
    else if FrameSize(frame) != expected.encodedLen || PageHash(frame) != expected.hash then Err(InvalidPage)
    else
      match Decode(frame)
      case None => Err(InvalidPage)
      case Some(page) =>
        if page.scope != cx.scope || page.section != cx.section then Err(InvalidPage)
        else if !CountsOk(page) then Err(CountsError(page))
        else if PageSize(page) > PAGE_BYTES then Err(Bounds)
        else if RefTo(page) != expected || Canonical(page) != frame then Err(InvalidPage)
        else Ok(page)
  }

  /** The page a reference commits to, if any bytes at all can satisfy it. */
  predicate Committed(cx: Context, r: PageRef) {
    r.hash.frame.Canonical? && VerifyPage(r, cx, r.hash.frame).Ok?
  }

  function PageOf(r: PageRef): Page
    requires r.hash.frame.Canonical?
  {
    r.hash.frame.page
  }

  /** Whatever bytes are offered, verification lets through only the one page committed to. */
  lemma VerifiedIsCommitted(expected: PageRef, cx: Context, frame: Frame)
    ensures VerifyPage(expected, cx, frame).Ok? <==> Committed(cx, expected) && frame == expected.hash.frame
    ensures VerifyPage(expected, cx, frame).Ok? ==> VerifyPage(expected, cx, frame).value == PageOf(expected)
  {
  }

  /** A page that encodes is accepted under its own reference, with the counts of its children. */
  lemma EncodedIsCommitted(cx: Context, page: Page)
    requires Encodable(page) && page.scope == cx.scope && page.section == cx.section && RefOk(RefTo(page))
    ensures Committed(cx, RefTo(page)) && PageOf(RefTo(page)) == page
  {
  }

  // ---------------------------------------------------------------- the stream a reference commits to

  /** The bytes below a reference; nothing where no page can be verified. */
  function Stream(cx: Context, r: PageRef): Bytes
    decreases r
  {
    if !Committed(cx, r) then []
    else
      match PageOf(r).body
      case Leaf(bytes) => bytes
      case Index(children) => Streams(cx, children)
  }

  function Streams(cx: Context, refs: seq<PageRef>): Bytes
    decreases refs
  {
    if refs == [] then [] else Stream(cx, refs[0]) + Streams(cx, refs[1..])
  }

  /** All pages below a reference. */
  ghost function Frames(r: PageRef): set<Frame>
    decreases r
  {
    {r.hash.frame} +
    if r.hash.frame.Canonical? && r.hash.frame.page.body.Index? then AllFrames(r.hash.frame.page.body.children) else {}
  }

  ghost function AllFrames(refs: seq<PageRef>): set<Frame>
    decreases refs
  {
    if refs == [] then {} else Frames(refs[0]) + AllFrames(refs[1..])
  }

  /** Every page below the reference can be verified. */
  ghost predicate Intact(cx: Context, r: PageRef)
    decreases r
  {
    Committed(cx, r)
    && (PageOf(r).body.Index? ==>
          forall i :: 0 <= i < |PageOf(r).body.children| ==> Intact(cx, PageOf(r).body.children[i]))
  }
}
