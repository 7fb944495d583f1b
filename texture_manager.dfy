/** The chunked paint layer: the background is cut into CHUNK_SIZE x CHUNK_SIZE
    textures, a global pixel (x, y) lives in chunk (x / CHUNK_SIZE, y / CHUNK_SIZE)
    at local (x % CHUNK_SIZE, y % CHUNK_SIZE), and every chunk written since the
    last upload is remembered in a dirty set. */
module TextureManager {
  import opened Geometry
  import opened Colors
  import opened Textures
  import Utils

  const CHUNK_SIZE: int := 500

  /** A background of width w needs Ceil(w / CHUNK_SIZE) chunks along x: every pixel
      column below w falls in one of them, and the last one starts inside the background. */
  lemma ChunkCountCovers(extent: real, x: int)
    requires 0 <= x && (x as real) < extent
    ensures 0 <= x / CHUNK_SIZE < Ceil(extent / CHUNK_SIZE as real)
    ensures ((Ceil(extent / CHUNK_SIZE as real) - 1) * CHUNK_SIZE) as real < extent
  {
    var n := Ceil(extent / 500.0);
    var q := x / 500;
    assert q * 500 <= x;
    assert (q * 500) as real <= x as real;
    assert (q as real) * 500.0 < extent;
    assert q as real < extent / 500.0;
    assert ((n - 1) as real) * 500.0 < extent;
  }

  /** Two global coordinates that share chunk and local offset are the same coordinate */
  lemma ChunkLocalInjective(x: int, x': int)
    requires 0 <= x && 0 <= x'
    requires x / CHUNK_SIZE == x' / CHUNK_SIZE && x % CHUNK_SIZE == x' % CHUNK_SIZE
    ensures x == x'
  {
    assert x == (x / 500) * 500 + x % 500;
    assert x' == (x' / 500) * 500 + x' % 500;
  }

  predicate Before(i: int, j: int, doneRow: int, doneCol: int) {
    i < doneRow || (i == doneRow && j < doneCol)
  }

  ghost predicate IsClearChunk(t: Texture2D)
    reads t
  {
    t.width == CHUNK_SIZE && t.height == CHUNK_SIZE && t.Valid() && t.pixels == Filled(CHUNK_SIZE, CHUNK_SIZE, Clear)
  }

  class TextureManager {
    var chunks: array2<Texture2D?>
    var rows: int
    var cols: int
    var dirty: set<Texture2D>
    /** Where each chunk texture sits in `chunks`; it makes the chunks pairwise distinct */
    ghost var Index: map<Texture2D, (int, int)>

    ghost predicate Valid()
      reads this, chunks, Index.Keys
    {
      && chunks.Length0 == rows && chunks.Length1 == cols
      && (forall i, j :: 0 <= i < rows && 0 <= j < cols ==>
            chunks[i, j] != null && chunks[i, j] in Index && Index[chunks[i, j]] == (i, j))
      && (forall t :: t in Index ==>
            && 0 <= Index[t].0 < rows && 0 <= Index[t].1 < cols && chunks[Index[t].0, Index[t].1] == t
            && t.width == CHUNK_SIZE && t.height == CHUNK_SIZE && t.Valid())
      && dirty <= Index.Keys
    }

    ghost predicate OnCanvas(x: int, y: int)
      reads this
    {
      0 <= x && 0 <= y && x / CHUNK_SIZE < rows && y / CHUNK_SIZE < cols
    }

    /** The colour of global pixel (x, y) of the whole background */
    ghost function Pixel(x: int, y: int): Color
      reads this, chunks, Index.Keys
      requires Valid() && OnCanvas(x, y)
    {
      chunks[x / CHUNK_SIZE, y / CHUNK_SIZE].pixels[x % CHUNK_SIZE][y % CHUNK_SIZE]
    }

    /** init: a Ceil(bgWidth / 500) by Ceil(bgHeight / 500) grid of clear 500 x 500 chunks */
    constructor Init(bgWidth: real, bgHeight: real)
      requires 0.0 <= bgWidth && 0.0 <= bgHeight
      ensures Valid() && dirty == {}
      ensures rows == Ceil(bgWidth / CHUNK_SIZE as real) && cols == Ceil(bgHeight / CHUNK_SIZE as real)
      ensures forall t :: t in Index ==> fresh(t) && t.pixels == Filled(CHUNK_SIZE, CHUNK_SIZE, Clear)
    {
      var rowCount, colCount := Ceil(bgWidth / CHUNK_SIZE as real), Ceil(bgHeight / CHUNK_SIZE as real);
      rows, cols := rowCount, colCount;
      dirty := {};
      var grid := new Texture2D?[rowCount, colCount];
      chunks := grid;
      Index := map[];
      new;
      for rowIdx := 0 to rowCount
        invariant rows == rowCount && cols == colCount && chunks == grid && dirty == {}
        invariant BuiltUpTo(rowIdx, 0)
        invariant forall t :: t in Index ==> fresh(t)
      {
        for colIdx := 0 to colCount
          invariant rows == rowCount && cols == colCount && chunks == grid && dirty == {}
          invariant BuiltUpTo(rowIdx, colIdx)
          invariant forall t :: t in Index ==> fresh(t)
        {
          AddChunk(rowIdx, colIdx);
        }
        BuiltNextRow(rowIdx);
      }
      BuiltIsValid();
    }

    /** One step of init: a new clear chunk at (row, col) */
    method AddChunk(row: int, col: int)
      requires BuiltUpTo(row, col) && 0 <= row < rows && 0 <= col < cols
      modifies chunks, this`Index
      ensures BuiltUpTo(row, col + 1)
      ensures forall t :: t in Index ==> t in old(Index) || fresh(t)
      ensures fresh(chunks[row, col]) && Index == old(Index)[chunks[row, col] := (row, col)]
      ensures forall i, j :: 0 <= i < rows && 0 <= j < cols && (i, j) != (row, col) ==>
        chunks[i, j] == old(chunks[i, j])
    {
      var chunk := new Texture2D(CHUNK_SIZE, CHUNK_SIZE, Clear);
      assert chunk !in Index;
      chunks[row, col] := chunk;
      Index := Index[chunk := (row, col)];
      forall t | t in Index
        ensures 0 <= Index[t].0 < rows && 0 <= Index[t].1 < cols && chunks[Index[t].0, Index[t].1] == t
        ensures Before(Index[t].0, Index[t].1, row, col + 1) && IsClearChunk(t)
      {
        if t != chunk {
          assert t in old(Index) && Index[t] == old(Index[t]);
        }
      }
      forall i, j | 0 <= i < rows && 0 <= j < cols && Before(i, j, row, col + 1)
        ensures chunks[i, j] != null && chunks[i, j] in Index && Index[chunks[i, j]] == (i, j)
      {
        if (i, j) != (row, col) {
          assert chunks[i, j] == old(chunks[i, j]) && chunks[i, j] in old(Index);
        }
      }
    }

    lemma BuiltNextRow(row: int)
      requires BuiltUpTo(row, cols)
      ensures BuiltUpTo(row + 1, 0)
    {}

    lemma BuiltIsValid()
      requires BuiltUpTo(rows, 0) && dirty == {}
      ensures Valid()
    {}

    /** While init runs: the chunks before (doneRow, doneCol) in row order exist, are
        pairwise distinct and are clear. */
    ghost predicate BuiltUpTo(doneRow: int, doneCol: int)
      reads this, chunks, Index.Keys
    {
      && chunks.Length0 == rows && chunks.Length1 == cols
      && (forall i, j :: 0 <= i < rows && 0 <= j < cols && Before(i, j, doneRow, doneCol) ==>
            chunks[i, j] != null && chunks[i, j] in Index && Index[chunks[i, j]] == (i, j))
      && (forall t :: t in Index ==>
            && 0 <= Index[t].0 < rows && 0 <= Index[t].1 < cols && chunks[Index[t].0, Index[t].1] == t
            && Before(Index[t].0, Index[t].1, doneRow, doneCol) && IsClearChunk(t))
    }

    /** SetPixel: writes one pixel of one chunk and marks that chunk dirty. The C# code has
        no bounds check, so the coordinate must be on the canvas. */
    method SetPixel(x: int, y: int, color: Color)
      requires Valid() && OnCanvas(x, y)
      modifies chunks[x / CHUNK_SIZE, y / CHUNK_SIZE], this`dirty
      ensures Valid()
      ensures dirty == old(dirty) + {chunks[x / CHUNK_SIZE, y / CHUNK_SIZE]}
      ensures forall gx, gy :: OnCanvas(gx, gy) ==>
        Pixel(gx, gy) == if gx == x && gy == y then color else old(Pixel(gx, gy))
    {
      var tex := chunks[x / CHUNK_SIZE, y / CHUNK_SIZE];
      tex.SetPixel(x % CHUNK_SIZE, y % CHUNK_SIZE, color);
      dirty := dirty + {tex};
      forall gx, gy | OnCanvas(gx, gy)
        ensures Pixel(gx, gy) == if gx == x && gy == y then color else old(Pixel(gx, gy))
      {
        if chunks[gx / CHUNK_SIZE, gy / CHUNK_SIZE] == tex && gx % CHUNK_SIZE == x % CHUNK_SIZE && gy % CHUNK_SIZE == y % CHUNK_SIZE {
          assert gx / CHUNK_SIZE == x / CHUNK_SIZE && gy / CHUNK_SIZE == y / CHUNK_SIZE;
          ChunkLocalInjective(gx, x);
          ChunkLocalInjective(gy, y);
        }
      }
    }

    /** Apply: every dirty chunk is uploaded and the dirty set is emptied */
    method Apply()
      requires Valid()
      modifies this`dirty
      ensures Valid() && dirty == {}
    {
      dirty := {};
    }

    /** ResetPaintLayer: every chunk is filled with clear and the dirty set is emptied */
    method ResetPaintLayer()
      requires Valid()
      modifies Index.Keys, this`dirty
      ensures Valid() && dirty == {}
      ensures forall t :: t in Index ==> t.pixels == Filled(CHUNK_SIZE, CHUNK_SIZE, Clear)
      ensures forall x, y :: OnCanvas(x, y) ==> Pixel(x, y) == Clear
    {
      for rowIdx := 0 to rows
        invariant Valid()
        invariant forall t :: t in Index && Before(Index[t].0, Index[t].1, rowIdx, 0) ==>
          t.pixels == Filled(CHUNK_SIZE, CHUNK_SIZE, Clear)
      {
        for colIdx := 0 to cols
          invariant Valid()
          invariant forall t :: t in Index && Before(Index[t].0, Index[t].1, rowIdx, colIdx) ==>
            t.pixels == Filled(CHUNK_SIZE, CHUNK_SIZE, Clear)
        {
          var chunk := chunks[rowIdx, colIdx];
          label Before:
          ClearChunk(rowIdx, colIdx);
          forall t | t in Index && Before(Index[t].0, Index[t].1, rowIdx, colIdx + 1)
            ensures t.pixels == Filled(CHUNK_SIZE, CHUNK_SIZE, Clear)
          {
            if t != chunk {
              assert Before(Index[t].0, Index[t].1, rowIdx, colIdx);
              assert t.pixels == old@Before(t.pixels);
            }
          }
        }
      }
      dirty := {};
    }

    /** The body of ResetPaintLayer's loop: one chunk becomes clear */
    method ClearChunk(row: int, col: int)
      requires Valid() && 0 <= row < rows && 0 <= col < cols
      modifies chunks[row, col]
      ensures Valid() && chunks[row, col].pixels == Filled(CHUNK_SIZE, CHUNK_SIZE, Clear)
    {
      var chunk := chunks[row, col];
      assert Index[chunk] == (row, col);
      Utils.SetTextureColor(chunk, Clear);
    }
  }
}
