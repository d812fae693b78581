/**
 * The checkered cover of a mashup: the output image has the first cover's
 * size and is tiled in blocks of stepWidth x stepHeight pixels, the blocks
 * alternating between the two covers like the squares of a chessboard.
 *
 * Images are 2-D arrays indexed [x, y], x < width = Length0 and
 * y < height = Length1, as image::RgbaImage's get_pixel/put_pixel are.
 * Opening and saving the files is not part of this model; the random block
 * counts are parameters.
 */
module Cover {
  import opened Division

  datatype Rgba = Rgba(r: bv8, g: bv8, b: bv8, a: bv8)

  /** A pixel of a freshly created RgbaImage. */
  const Transparent := Rgba(0, 0, 0, 0)

  /** Whether pixel (px, py) of the output comes from the first cover. */
  predicate FromFirst(px: nat, py: nat, stepWidth: nat, stepHeight: nat)
    requires stepWidth > 0 && stepHeight > 0
  {
    (px / stepWidth + py / stepHeight) % 2 == 0
  }

  /** The output pixel at (px, py): the first cover's on "even" blocks, the
    * second's on "odd" ones. */
  ghost function Checkered(img1: array2<Rgba>, img2: array2<Rgba>, stepWidth: nat, stepHeight: nat, px: nat, py: nat): Rgba
    requires stepWidth > 0 && stepHeight > 0
    requires px < img1.Length0 && py < img1.Length1
    requires px < img2.Length0 && py < img2.Length1
    reads img1, img2
  {
    if FromFirst(px, py, stepWidth, stepHeight) then img1[px, py] else img2[px, py]
  }

  function Min(a: nat, b: nat): nat {
    if a < b then a else b
  }

  lemma MulSucc(k: nat, n: nat)
    ensures (k + 1) * n == k * n + n
  {
  }

  /** All pixels of a block share the colour of the block's corner. */
  lemma SameBlock(kx: nat, ky: nat, px: nat, py: nat, stepWidth: nat, stepHeight: nat)
    requires stepWidth > 0 && stepHeight > 0
    requires kx * stepWidth <= px < kx * stepWidth + stepWidth
    requires ky * stepHeight <= py < ky * stepHeight + stepHeight
    ensures FromFirst(px, py, stepWidth, stepHeight) <==> FromFirst(kx * stepWidth, ky * stepHeight, stepWidth, stepHeight)
  {
    DivBlock(kx, stepWidth, px - kx * stepWidth);
    DivBlock(ky, stepHeight, py - ky * stepHeight);
    DivBlock(kx, stepWidth, 0);
    DivBlock(ky, stepHeight, 0);
  }

  predicate InBlock(px: int, py: int, x: int, y: int, blockWidth: int, blockHeight: int) {
    x <= px < x + blockWidth && y <= py < y + blockHeight
  }

  /** The block_x loop: copy `blockWidth` pixels of row `py` from x on. */
  method CopyRow(output: array2<Rgba>, source: array2<Rgba>, x: nat, py: nat, blockWidth: nat,
                 ghost writes: multiset<(int, int)>)
    returns (ghost writes': multiset<(int, int)>)
    requires output != source
    requires x + blockWidth <= output.Length0 && py < output.Length1
    requires x + blockWidth <= source.Length0 && py < source.Length1
    modifies output
    ensures forall i, j :: 0 <= i < output.Length0 && 0 <= j < output.Length1 ==>
              output[i, j] == if InBlock(i, j, x, py, blockWidth, 1) then source[i, j] else old(output[i, j])
    ensures forall i, j :: writes'[(i, j)] == writes[(i, j)] + if InBlock(i, j, x, py, blockWidth, 1) then 1 else 0
    ensures forall p :: p in writes' ==> p in writes || InBlock(p.0, p.1, x, py, blockWidth, 1)
  {
    writes' := writes;
    var blockX := 0;
    while blockX < blockWidth
      invariant 0 <= blockX <= blockWidth
      invariant forall i, j :: 0 <= i < output.Length0 && 0 <= j < output.Length1 ==>
                  output[i, j] == if InBlock(i, j, x, py, blockX, 1) then source[i, j] else old(output[i, j])
      invariant forall i, j :: writes'[(i, j)] == writes[(i, j)] + if InBlock(i, j, x, py, blockX, 1) then 1 else 0
      invariant forall p :: p in writes' ==> p in writes || InBlock(p.0, p.1, x, py, blockX, 1)
    {
      var pixel := source[x + blockX, py];
      output[x + blockX, py] := pixel;
      writes' := writes' + multiset{(x + blockX, py)};
      blockX := blockX + 1;
    }
  }

  /** The block_y loop: copy the block with corner (x, y) from `source` to
    * `output`, row by row. */
  method CopyBlock(output: array2<Rgba>, source: array2<Rgba>, x: nat, y: nat, blockWidth: nat, blockHeight: nat,
                   ghost writes: multiset<(int, int)>)
    returns (ghost writes': multiset<(int, int)>)
    requires output != source
    requires x + blockWidth <= output.Length0 && y + blockHeight <= output.Length1
    requires x + blockWidth <= source.Length0 && y + blockHeight <= source.Length1
    modifies output
    ensures forall px, py :: 0 <= px < output.Length0 && 0 <= py < output.Length1 ==>
              output[px, py] == if InBlock(px, py, x, y, blockWidth, blockHeight) then source[px, py] else old(output[px, py])
    ensures forall px, py :: writes'[(px, py)] == writes[(px, py)] + if InBlock(px, py, x, y, blockWidth, blockHeight) then 1 else 0
    ensures forall p :: p in writes' ==> p in writes || InBlock(p.0, p.1, x, y, blockWidth, blockHeight)
  {
    writes' := writes;
    var blockY := 0;
    while blockY < blockHeight
      invariant 0 <= blockY <= blockHeight
      invariant forall px, py :: 0 <= px < output.Length0 && 0 <= py < output.Length1 ==>
                  output[px, py] == if InBlock(px, py, x, y, blockWidth, blockY) then source[px, py] else old(output[px, py])
      invariant forall px, py :: writes'[(px, py)] == writes[(px, py)] + if InBlock(px, py, x, y, blockWidth, blockY) then 1 else 0
      invariant forall p :: p in writes' ==> p in writes || InBlock(p.0, p.1, x, y, blockWidth, blockY)
    {
      writes' := CopyRow(output, source, x, y + blockY, blockWidth, writes');
      blockY := blockY + 1;
    }
  }

  /** One pass of the x loop: the blocks of the block row whose top edge is
    * `y`, left to right. */
  method TileRow(output: array2<Rgba>, img1: array2<Rgba>, img2: array2<Rgba>, y: nat, ghost blockRow: nat,
                 stepWidth: nat, stepHeight: nat, ghost writes: multiset<(int, int)>)
    returns (ghost writes': multiset<(int, int)>)
    requires output != img1 && output != img2
    requires stepWidth > 0 && stepHeight > 0
    requires y == blockRow * stepHeight && y < output.Length1
    requires output.Length0 == img1.Length0 && output.Length1 == img1.Length1
    requires img2.Length0 >= img1.Length0 && img2.Length1 >= img1.Length1
    modifies output
    ensures forall px, py :: 0 <= px < output.Length0 && 0 <= py < output.Length1 ==>
              output[px, py] == if y <= py < y + stepHeight then Checkered(img1, img2, stepWidth, stepHeight, px, py)
                                else old(output[px, py])
    ensures forall px, py :: writes'[(px, py)] == writes[(px, py)]
              + if InBlock(px, py, 0, y, output.Length0, Min(y + stepHeight, output.Length1) - y) then 1 else 0
    ensures forall p :: p in writes' ==> p in writes || InBlock(p.0, p.1, 0, y, output.Length0, Min(y + stepHeight, output.Length1) - y)
  {
    var width, height := output.Length0, output.Length1;
    var blockHeight := Min(y + stepHeight, height) - y;
    writes' := writes;
    var x := 0;
    ghost var blockColumn := 0;
    while x < width
      invariant x == blockColumn * stepWidth
      invariant forall px, py :: 0 <= px < width && 0 <= py < height ==>
                  output[px, py] == if y <= py < y + stepHeight && px < x then Checkered(img1, img2, stepWidth, stepHeight, px, py)
                                    else old(output[px, py])
      invariant forall px, py :: writes'[(px, py)] == writes[(px, py)]
                  + if InBlock(px, py, 0, y, Min(x, width), blockHeight) then 1 else 0
      invariant forall p :: p in writes' ==> p in writes || InBlock(p.0, p.1, 0, y, Min(x, width), blockHeight)
      decreases width - x
    {
      var useImg1 := (x / stepWidth + y / stepHeight) % 2 == 0;
      var blockWidth := Min(x + stepWidth, width) - x;
      var source := if useImg1 then img1 else img2;
      forall px, py | 0 <= px < width && 0 <= py < height && InBlock(px, py, x, y, blockWidth, blockHeight)
        ensures source[px, py] == Checkered(img1, img2, stepWidth, stepHeight, px, py)
      {
        SameBlock(blockColumn, blockRow, px, py, stepWidth, stepHeight);
      }
      writes' := CopyBlock(output, source, x, y, blockWidth, blockHeight, writes');
      MulSucc(blockColumn, stepWidth);
      x := x + stepWidth;
      blockColumn := blockColumn + 1;
    }
  }

  /** create_checkered_image, between opening and saving the files.  The block
    * size is each dimension of the first cover divided by a random count in
    * 2..=20; `writes` records the coordinates of every put_pixel. */
  method CreateCheckeredImage(img1: array2<Rgba>, img2: array2<Rgba>, widthBlocks: nat, heightBlocks: nat)
    returns (output: array2<Rgba>, ghost writes: multiset<(int, int)>)
    requires 2 <= widthBlocks <= 20 && 2 <= heightBlocks <= 20
    // step_by(0) panics: each dimension must hold at least as many pixels as blocks
    requires img1.Length0 / widthBlocks > 0 && img1.Length1 / heightBlocks > 0
    // get_pixel panics outside the second cover
    requires img2.Length0 >= img1.Length0 && img2.Length1 >= img1.Length1
    ensures fresh(output)
    ensures output.Length0 == img1.Length0 && output.Length1 == img1.Length1
    ensures var stepWidth, stepHeight := img1.Length0 / widthBlocks, img1.Length1 / heightBlocks;
            forall px, py :: 0 <= px < output.Length0 && 0 <= py < output.Length1 ==>
              output[px, py] == Checkered(img1, img2, stepWidth, stepHeight, px, py)
    ensures forall px, py :: 0 <= px < output.Length0 && 0 <= py < output.Length1 ==> writes[(px, py)] == 1
    ensures forall p :: p in writes ==> 0 <= p.0 < img1.Length0 && 0 <= p.1 < img1.Length1
  {
    var width, height := img1.Length0, img1.Length1;
    output := new Rgba[width, height]((i, j) => Transparent);
    var stepHeight := height / heightBlocks;
    var stepWidth := width / widthBlocks;
    writes := multiset{};
    var y := 0;
    ghost var blockRow := 0;
    while y < height
      invariant y == blockRow * stepHeight
      invariant forall px, py :: 0 <= px < width && 0 <= py < height ==>
                  output[px, py] == if py < y then Checkered(img1, img2, stepWidth, stepHeight, px, py) else Transparent
      invariant forall px, py :: writes[(px, py)] == if InBlock(px, py, 0, 0, width, Min(y, height)) then 1 else 0
      invariant forall p :: p in writes ==> InBlock(p.0, p.1, 0, 0, width, Min(y, height))
      decreases height - y
    {
      writes := TileRow(output, img1, img2, y, blockRow, stepWidth, stepHeight, writes);
      MulSucc(blockRow, stepHeight);
      y := y + stepHeight;
      blockRow := blockRow + 1;
    }
  }
}
