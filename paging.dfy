/**
 * The page breaking of the PDF export (`downloadPreviewPdf`, identical in both editors): the
 * export blocks' vertical extents, in pixels, are cut into page slices without splitting a block
 * that fits on a page, and a block taller than a page is cut into page-sized chunks. Also the
 * file name the PDF is saved under.
 */
module PdfExport {
  /** One export block's extent: `top` is clamped at 0, `bottom` is `top + height` (both floored). */
  datatype Block = Block(top: int, bottom: int)

  /** A slice to capture: its top `y` and its captured height `h` (the content height plus 20). */
  datatype Slice = Slice(y: int, h: int)

  /**
   * Where the page after a flush caused by a block that does not fit starts. The code restarts
   * at the previous page's bottom; its comment says the new page starts at the block's top.
   */
  datatype Restart = AtPageBottom | AtBlockTop

  /** The loop's state: `pageStart`, `currentBottom` and the slices pushed so far. */
  datatype Pager = Pager(pageStart: int, currentBottom: int, slices: seq<Slice>)

  function Max(a: int, b: int): int {
    if a < b then b else a
  }

  /** `pushSlice(start, height)`: a slice never starts above 0 and captures at least one pixel plus 20. */
  function PushSlice(start: int, height: int): (s: Slice)
    ensures s.y >= 0 && s.h >= 21
    ensures start >= 0 ==> s.y == start
    ensures height >= 1 ==> s.h - 20 == height
  {
    Slice(Max(0, start), Max(1, height) + 20)
  }

  /** `flushPage()` followed by the page restarting at `next`. */
  function Flush(p: Pager, next: int): (q: Pager)
    ensures q.pageStart == next && q.currentBottom == p.currentBottom
    ensures |q.slices| == |p.slices| + (if p.currentBottom > p.pageStart then 1 else 0)
    ensures q.slices[..|p.slices|] == p.slices
  {
    var slices :=
      if p.currentBottom > p.pageStart then p.slices + [PushSlice(p.pageStart, p.currentBottom - p.pageStart)]
      else p.slices;
    Pager(next, p.currentBottom, slices)
  }

  /** The slices the inner loop pushes for a tall block while `y < bottom`. */
  function Chunks(y: int, bottom: int, pageHeight: int): seq<Slice>
    requires pageHeight > 0
    decreases bottom - y
  {
    if y < bottom then
      var h := if pageHeight < bottom - y then pageHeight else bottom - y;
      [PushSlice(y, h)] + Chunks(y + h, bottom, pageHeight)
    else []
  }

  /** One pass of the block loop. */
  function Step(p: Pager, b: Block, pageHeight: int, restart: Restart): Pager
    requires pageHeight > 0
  {
    if b.bottom - b.top > pageHeight then
      var q := Flush(p, p.currentBottom);
      Pager(b.bottom, b.bottom, q.slices + Chunks(b.top, b.bottom, pageHeight))
    else
      var q :=
        if b.top - p.pageStart >= 0 && b.bottom - p.pageStart > pageHeight
        then Flush(p, if restart == AtBlockTop then b.top else p.currentBottom)
        else p;
      q.(currentBottom := Max(q.currentBottom, b.bottom))
  }

  /** The loop's state after the first `n` blocks. */
  function Scan(blocks: seq<Block>, n: nat, pageHeight: int, restart: Restart): Pager
    requires pageHeight > 0 && n <= |blocks|
  {
    if n == 0 then Pager(0, 0, [])
    else Step(Scan(blocks, n - 1, pageHeight, restart), blocks[n - 1], pageHeight, restart)
  }

  /** The slices of the whole export: the block loop, then the last page flushed. */
  function Paginate(blocks: seq<Block>, pageHeight: int, restart: Restart): seq<Slice>
    requires pageHeight > 0
  {
    var p := Scan(blocks, |blocks|, pageHeight, restart);
    Flush(p, p.currentBottom).slices
  }

  /** The slicing loop, pushing onto `slices` as it goes. */
  method SlicePages(blocks: seq<Block>, pageHeight: int, restart: Restart) returns (slices: seq<Slice>)
    requires pageHeight > 0
    ensures slices == Paginate(blocks, pageHeight, restart)
  {
    slices := [];
    var pageStart, currentBottom := 0, 0;
    var i := 0;
    while i < |blocks|
      invariant 0 <= i <= |blocks|
      invariant Pager(pageStart, currentBottom, slices) == Scan(blocks, i, pageHeight, restart)
    {
      ghost var p := Pager(pageStart, currentBottom, slices);
      assert Scan(blocks, i + 1, pageHeight, restart) == Step(p, blocks[i], pageHeight, restart);
      var top, bottom := blocks[i].top, blocks[i].bottom;
      if bottom - top > pageHeight {
        if currentBottom > pageStart {
          slices := slices + [PushSlice(pageStart, currentBottom - pageStart)];
          pageStart := currentBottom;
        }
        assert slices == Flush(p, p.currentBottom).slices;
        slices, pageStart := CutTallBlock(slices, pageStart, top, bottom, pageHeight);
        currentBottom := pageStart;
      } else {
        if top - pageStart >= 0 && bottom - pageStart > pageHeight {
          if currentBottom > pageStart {
            slices := slices + [PushSlice(pageStart, currentBottom - pageStart)];
          }
          pageStart := if restart == AtBlockTop then top else currentBottom;
        }
        currentBottom := Max(currentBottom, bottom);
      }
      i := i + 1;
    }
    if currentBottom > pageStart {
      slices := slices + [PushSlice(pageStart, currentBottom - pageStart)];
      pageStart := currentBottom;
    }
  }

  /** The inner loop over a block taller than a page: page-sized chunks from its top to its bottom. */
  method CutTallBlock(slices0: seq<Slice>, pageStart0: int, top: int, bottom: int, pageHeight: int)
    returns (slices: seq<Slice>, pageStart: int)
    requires pageHeight > 0 && bottom - top > pageHeight
    ensures slices == slices0 + Chunks(top, bottom, pageHeight)
    ensures pageStart == bottom
  {
    slices, pageStart := slices0, pageStart0;
    var y := top;
    while y < bottom
      invariant top <= y <= bottom
      invariant slices0 + Chunks(top, bottom, pageHeight) == slices + Chunks(y, bottom, pageHeight)
      invariant y > top ==> pageStart == y
      decreases bottom - y
    {
      var sliceH := if pageHeight < bottom - y then pageHeight else bottom - y;
      ghost var rest := Chunks(y + sliceH, bottom, pageHeight);
      assert Chunks(y, bottom, pageHeight) == [PushSlice(y, sliceH)] + rest;
      assert slices + ([PushSlice(y, sliceH)] + rest) == (slices + [PushSlice(y, sliceH)]) + rest;
      slices := slices + [PushSlice(y, sliceH)];
      y := y + sliceH;
      pageStart := y;
    }
    assert Chunks(y, bottom, pageHeight) == [];
  }

  predicate SlicesValid(slices: seq<Slice>) {
    forall k :: 0 <= k < |slices| ==> slices[k].y >= 0 && slices[k].h >= 21
  }

  /** The chunks of `[y, bottom)`: consecutive, each at most a page, the first at `y`, the last ending at `bottom`. */
  predicate CoversExactly(cs: seq<Slice>, lo: int, hi: int, pageHeight: int) {
    && |cs| >= 1 && cs[0].y == lo
    && (forall k :: 0 <= k < |cs| ==> 21 <= cs[k].h <= pageHeight + 20)
    && (forall k :: 0 <= k < |cs| - 1 ==> cs[k + 1].y == cs[k].y + cs[k].h - 20)
    && cs[|cs| - 1].y + cs[|cs| - 1].h - 20 == hi
  }

  lemma {:induction false} ChunksValid(y: int, bottom: int, pageHeight: int)
    requires pageHeight > 0
    ensures SlicesValid(Chunks(y, bottom, pageHeight))
    ensures forall k :: 0 <= k < |Chunks(y, bottom, pageHeight)| ==> Chunks(y, bottom, pageHeight)[k].h <= pageHeight + 20
    decreases bottom - y
  {
    if y < bottom {
      var h := if pageHeight < bottom - y then pageHeight else bottom - y;
      ChunksValid(y + h, bottom, pageHeight);
    }
  }

  /** A block taller than a page is cut into page-sized chunks that exactly cover it. */
  lemma {:induction false} ChunksCover(y: int, bottom: int, pageHeight: int)
    requires pageHeight > 0 && 0 <= y < bottom
    ensures CoversExactly(Chunks(y, bottom, pageHeight), y, bottom, pageHeight)
    decreases bottom - y
  {
    var h := if pageHeight < bottom - y then pageHeight else bottom - y;
    var rest := Chunks(y + h, bottom, pageHeight);
    ChunksValid(y, bottom, pageHeight);
    if y + h < bottom {
      ChunksCover(y + h, bottom, pageHeight);
      assert Chunks(y, bottom, pageHeight) == [PushSlice(y, h)] + rest;
    } else {
      assert rest == [];
    }
  }

  /**
   * After a block taller than a page the page restarts at the block's bottom, and the slices
   * pushed after the flushed page cover the block exactly.
   */
  lemma TallBlockCut(p: Pager, b: Block, pageHeight: int, restart: Restart)
    requires pageHeight > 0 && b.top >= 0 && b.bottom - b.top > pageHeight
    ensures Step(p, b, pageHeight, restart).pageStart == b.bottom
    ensures Step(p, b, pageHeight, restart).currentBottom == b.bottom
    ensures var f := Flush(p, p.currentBottom).slices;
            var q := Step(p, b, pageHeight, restart).slices;
            |f| <= |q| && q[..|f|] == f && CoversExactly(q[|f|..], b.top, b.bottom, pageHeight)
  {
    var f := Flush(p, p.currentBottom).slices;
    ChunksCover(b.top, b.bottom, pageHeight);
    assert Step(p, b, pageHeight, restart).slices[|f|..] == Chunks(b.top, b.bottom, pageHeight);
  }

  /** A page is flushed only when it holds something. */
  lemma FlushOnlyNonEmpty(p: Pager, next: int)
    requires p.currentBottom <= p.pageStart
    ensures Flush(p, next).slices == p.slices
  {
  }

  lemma {:induction false} ScanValid(blocks: seq<Block>, n: nat, pageHeight: int, restart: Restart)
    requires pageHeight > 0 && n <= |blocks|
    ensures SlicesValid(Scan(blocks, n, pageHeight, restart).slices)
  {
    if n > 0 {
      var p := Scan(blocks, n - 1, pageHeight, restart);
      var b := blocks[n - 1];
      ScanValid(blocks, n - 1, pageHeight, restart);
      ChunksValid(b.top, b.bottom, pageHeight);
    }
  }

  /** Every slice starts at or below the top and captures at least 21 pixels. */
  lemma PaginateValid(blocks: seq<Block>, pageHeight: int, restart: Restart)
    requires pageHeight > 0
    ensures SlicesValid(Paginate(blocks, pageHeight, restart))
  {
    ScanValid(blocks, |blocks|, pageHeight, restart);
  }

  /** The page in progress is at most a page tall, and so is every slice pushed so far. */
  predicate PagesFit(p: Pager, pageHeight: int) {
    && p.currentBottom - p.pageStart <= pageHeight
    && forall k :: 0 <= k < |p.slices| ==> p.slices[k].h <= pageHeight + 20
  }

  lemma FlushFits(p: Pager, next: int, pageHeight: int)
    requires pageHeight > 0 && PagesFit(p, pageHeight)
    ensures forall k :: 0 <= k < |Flush(p, next).slices| ==> Flush(p, next).slices[k].h <= pageHeight + 20
  {
  }

  lemma StepFits(p: Pager, b: Block, pageHeight: int)
    requires pageHeight > 0 && PagesFit(p, pageHeight)
    ensures PagesFit(Step(p, b, pageHeight, AtBlockTop), pageHeight)
  {
    FlushFits(p, p.currentBottom, pageHeight);
    FlushFits(p, b.top, pageHeight);
    ChunksValid(b.top, b.bottom, pageHeight);
  }

  lemma {:induction false} ScanFits(blocks: seq<Block>, n: nat, pageHeight: int)
    requires pageHeight > 0 && n <= |blocks|
    ensures PagesFit(Scan(blocks, n, pageHeight, AtBlockTop), pageHeight)
  {
    if n > 0 {
      ScanFits(blocks, n - 1, pageHeight);
      StepFits(Scan(blocks, n - 1, pageHeight, AtBlockTop), blocks[n - 1], pageHeight);
    }
  }

  /** With the page restarting at the block's top, no slice is taller than a page (plus the 20-pixel margin). */
  lemma PagesFitAtBlockTop(blocks: seq<Block>, pageHeight: int)
    requires pageHeight > 0
    ensures forall k :: 0 <= k < |Paginate(blocks, pageHeight, AtBlockTop)| ==>
              Paginate(blocks, pageHeight, AtBlockTop)[k].h <= pageHeight + 20
  {
    ScanFits(blocks, |blocks|, pageHeight);
    var p := Scan(blocks, |blocks|, pageHeight, AtBlockTop);
    FlushFits(p, p.currentBottom, pageHeight);
  }

  /**
   * As written, a block that does not fit restarts the page at the previous page's bottom, so
   * the gap above the block joins the new page: a 100-pixel page yields a 140-pixel slice.
   */
  lemma OverfullPageAtPageBottom()
    ensures Paginate([Block(0, 10), Block(95, 150)], 100, AtPageBottom) == [Slice(0, 30), Slice(10, 160)]
    ensures Paginate([Block(0, 10), Block(95, 150)], 100, AtPageBottom)[1].h > 100 + 20
    ensures Paginate([Block(0, 10), Block(95, 150)], 100, AtBlockTop) == [Slice(0, 30), Slice(95, 75)]
  {
    var blocks := [Block(0, 10), Block(95, 150)];
    assert Scan(blocks, 1, 100, AtPageBottom) == Pager(0, 10, []);
    assert Scan(blocks, 2, 100, AtPageBottom) == Pager(10, 150, [Slice(0, 30)]);
    assert Scan(blocks, 1, 100, AtBlockTop) == Pager(0, 10, []);
    assert Scan(blocks, 2, 100, AtBlockTop) == Pager(95, 150, [Slice(0, 30)]);
  }

  /** The characters `\ / : * ? " < > |`, which a file name may not hold. */
  predicate Forbidden(c: char) {
    c == '\\' || c == '/' || c == ':' || c == '*' || c == '?' || c == '\"' || c == '<' || c == '>' || c == '|'
  }

  /** The title with every forbidden character removed. */
  function StripForbidden(s: string): (r: string)
    ensures |r| <= |s|
    ensures forall i :: 0 <= i < |r| ==> !Forbidden(r[i])
  {
    if s == [] then []
    else (if Forbidden(s[0]) then [] else [s[0]]) + StripForbidden(s[1..])
  }

  /** One character: a forbidden one is dropped, any other kept. */
  lemma StripSingle(c: char)
    ensures Forbidden(c) ==> StripForbidden([c]) == []
    ensures !Forbidden(c) ==> StripForbidden([c]) == [c]
  {
    assert [c][1..] == [];
  }

  lemma {:induction false} StripKeepsAllowed(s: string)
    ensures forall c :: c in s && !Forbidden(c) ==> c in StripForbidden(s)
    ensures (forall i :: 0 <= i < |s| ==> !Forbidden(s[i])) ==> StripForbidden(s) == s
  {
    if s != [] {
      StripKeepsAllowed(s[1..]);
      assert s == [s[0]] + s[1..];
    }
  }

  /** Stripping distributes over concatenation and is idempotent. */
  lemma {:induction false} StripAppend(a: string, b: string)
    ensures StripForbidden(a + b) == StripForbidden(a) + StripForbidden(b)
  {
    if a != [] {
      assert (a + b)[1..] == a[1..] + b;
      StripAppend(a[1..], b);
    } else {
      assert a + b == b;
    }
  }

  lemma StripIdempotent(s: string)
    ensures StripForbidden(StripForbidden(s)) == StripForbidden(s)
  {
    StripKeepsAllowed(StripForbidden(s));
  }

  /** The title a PDF gets when the itinerary has none. */
  const DefaultTitle: string := "itinerary"

  /** The name the PDF is saved under: the title (`itinerary` when empty) without forbidden characters, then `.pdf`. */
  function PdfFileName(title: string): (name: string)
    ensures |name| >= 4 && name[|name| - 4..] == ".pdf"
    ensures forall i :: 0 <= i < |name| - 4 ==> !Forbidden(name[i])
    ensures title == "" ==> name == DefaultTitle + ".pdf"
    ensures title != "" ==> name[..|name| - 4] == StripForbidden(title)
  {
    var base := if title == "" then DefaultTitle else title;
    DefaultNameAllowed();
    StripForbidden(base) + ".pdf"
  }

  lemma {:induction false} StripLowercase(s: string)
    requires forall i :: 0 <= i < |s| ==> 'a' <= s[i] <= 'z'
    ensures StripForbidden(s) == s
  {
    if s != [] {
      StripLowercase(s[1..]);
      assert s == [s[0]] + s[1..];
    }
  }

  /** The default title has no forbidden character. */
  lemma DefaultNameAllowed()
    ensures StripForbidden(DefaultTitle) == DefaultTitle
  {
    assert |DefaultTitle| == 9;
    assert forall i :: 0 <= i < |DefaultTitle| ==> 'a' <= DefaultTitle[i] <= 'z';
    StripLowercase(DefaultTitle);
  }
}
