/** Physical address to DRAM coordinates (runtime/DRAMsim3/src/configuration.cc:33-42, 347-404).
    Shifts and masks by powers of two are written as division and remainder. */
module AddressMap {
  import opened Common
  import Arith

  function Pow2(n: nat): (r: nat)
    ensures r > 0
  {
    if n == 0 then 1 else 2 * Pow2(n - 1)
  }

  function Log2(n: int): nat { if n <= 1 then 0 else 1 + Log2(n / 2) }

  /** The loop that halves until one is left. */
  method LogBase2(n: int) returns (i: nat)
    ensures i == Log2(n)
  {
    i := 0;
    var p := n;
    while p > 1
      invariant i + Log2(p) == Log2(n)
    {
      p := p / 2;
      i := i + 1;
    }
  }

  /** Log2 rounds down, so 2 to its power never exceeds the count it came from. */
  lemma {:induction false} Log2Bounds(n: int)
    requires n >= 1
    ensures Pow2(Log2(n)) <= n < 2 * Pow2(Log2(n))
  {
    if n > 1 { Log2Bounds(n / 2); }
  }

  lemma {:induction false} Pow2Add(a: nat, b: nat)
    ensures Pow2(a + b) == Pow2(a) * Pow2(b)
  {
    if a > 0 {
      Pow2Add(a - 1, b);
      assert Pow2(a + b) == 2 * Pow2(a - 1 + b);
    }
  }

  /** Bits of each field; columns are counted in whole bursts. */
  function Width(cfg: Config, f: Field): int {
    match f
    case Ch => Log2(cfg.channels)
    case Ra => Log2(cfg.ranks)
    case Bg => Log2(cfg.bankgroups)
    case Ba => Log2(cfg.banksPerGroup)
    case Ro => Log2(cfg.rows)
    case Co => Log2(cfg.columns) - Log2(cfg.BL)
  }

  /** Bits of a byte's place in its request. */
  function Shift(cfg: Config): nat { Log2(cfg.busWidth / 8 * cfg.BL) }

  predicate AllFields(order: seq<Field>) { |order| == 6 && forall f: Field :: f in order }

  /** Six fields each named once, and at least one burst to a row. */
  predicate ValidMapping(cfg: Config) { AllFields(cfg.mapping) && Log2(cfg.BL) <= Log2(cfg.columns) }

  function TotalWidth(cfg: Config, order: seq<Field>): nat
    requires Log2(cfg.BL) <= Log2(cfg.columns)
  {
    if order == [] then 0 else Width(cfg, order[0]) + TotalWidth(cfg, order[1..])
  }

  /** Bits below field `f`: the widths of all fields named after it. */
  function Pos(cfg: Config, order: seq<Field>, f: Field): nat
    requires Log2(cfg.BL) <= Log2(cfg.columns)
  {
    if order == [] then 0
    else if order[0] == f then TotalWidth(cfg, order[1..])
    else Pos(cfg, order[1..], f)
  }

  function Extract(cfg: Config, order: seq<Field>, a: nat, f: Field): nat
    requires Log2(cfg.BL) <= Log2(cfg.columns)
  {
    a / Pow2(Pos(cfg, order, f)) % Pow2(Width(cfg, f))
  }

  function AddressMapping(cfg: Config, hexAddr: nat): Address
    requires ValidMapping(cfg)
  {
    var a := hexAddr / Pow2(Shift(cfg));
    Address(Extract(cfg, cfg.mapping, a, Ch), Extract(cfg, cfg.mapping, a, Ra), Extract(cfg, cfg.mapping, a, Bg),
            Extract(cfg, cfg.mapping, a, Ba), Extract(cfg, cfg.mapping, a, Ro), Extract(cfg, cfg.mapping, a, Co))
  }

  function Coordinate(a: Address, f: Field): int {
    match f
    case Ch => a.channel case Ra => a.rank case Bg => a.bankgroup
    case Ba => a.bank case Ro => a.row case Co => a.column
  }

  /** Every coordinate fits the bits of its field. */
  predicate Fits(cfg: Config, a: Address)
    requires Log2(cfg.BL) <= Log2(cfg.columns)
  {
    forall f: Field :: 0 <= Coordinate(a, f) < Pow2(Width(cfg, f))
  }

  /** The request index that holds the coordinates of `a` in the fields of `order`. */
  function Join(cfg: Config, order: seq<Field>, a: Address): int
    requires Log2(cfg.BL) <= Log2(cfg.columns)
  {
    if order == [] then 0
    else Coordinate(a, order[0]) * Pow2(TotalWidth(cfg, order[1..])) + Join(cfg, order[1..], a)
  }

  ghost predicate Distinct(order: seq<Field>) { forall i, j :: 0 <= i < j < |order| ==> order[i] != order[j] }

  lemma {:induction false} JoinBounds(cfg: Config, order: seq<Field>, a: Address)
    requires Log2(cfg.BL) <= Log2(cfg.columns) && Fits(cfg, a)
    ensures 0 <= Join(cfg, order, a) < Pow2(TotalWidth(cfg, order))
  {
    if order != [] {
      JoinBounds(cfg, order[1..], a);
      Pow2Add(Width(cfg, order[0]), TotalWidth(cfg, order[1..]));
      Arith.Pack(Coordinate(a, order[0]), Join(cfg, order[1..], a), Pow2(Width(cfg, order[0])),
                 Pow2(TotalWidth(cfg, order[1..])));
    }
  }

  /** Fields of the tail read the same from a number and from its low digits. */
  lemma {:induction false} ExtractLow(cfg: Config, order: seq<Field>, hi: nat, lo: nat, f: Field)
    requires Log2(cfg.BL) <= Log2(cfg.columns) && f in order
    ensures Extract(cfg, order, hi * Pow2(TotalWidth(cfg, order)) + lo, f) == Extract(cfg, order, lo, f)
  {
    var w, p := Width(cfg, f), Pos(cfg, order, f);
    PosBelow(cfg, order, f);
    var rest := TotalWidth(cfg, order) - p - w;
    Pow2Add(p, w + rest);
    Pow2Add(rest, w);
    assert Pow2(TotalWidth(cfg, order)) == Pow2(p) * Pow2(w + rest);
    var n := hi * Pow2(TotalWidth(cfg, order)) + lo;
    assert n == (hi * Pow2(w + rest)) * Pow2(p) + lo by {
      Arith.Assoc(hi, Pow2(w + rest), Pow2(p));
    }
    Arith.DivAdd(hi * Pow2(w + rest), lo, Pow2(p));
    Arith.Assoc(hi, Pow2(rest), Pow2(w));
    Arith.ModAdd(hi * Pow2(rest), lo / Pow2(p), Pow2(w));
  }

  lemma {:induction false} PosBelow(cfg: Config, order: seq<Field>, f: Field)
    requires Log2(cfg.BL) <= Log2(cfg.columns) && f in order
    ensures Pos(cfg, order, f) + Width(cfg, f) <= TotalWidth(cfg, order)
  {
    if order[0] != f { PosBelow(cfg, order[1..], f); }
  }

  /** Reading a field back out of joined coordinates gives the coordinate. */
  lemma {:induction false} ExtractJoin(cfg: Config, order: seq<Field>, a: Address, f: Field)
    requires Log2(cfg.BL) <= Log2(cfg.columns) && Fits(cfg, a) && f in order
    ensures 0 <= Join(cfg, order, a)
    ensures Extract(cfg, order, Join(cfg, order, a), f) == Coordinate(a, f)
  {
    JoinBounds(cfg, order, a);
    var tail := order[1..];
    JoinBounds(cfg, tail, a);
    var hi, lo := Coordinate(a, order[0]), Join(cfg, tail, a);
    if order[0] == f {
      Arith.Pack(hi, lo, Pow2(Width(cfg, f)), Pow2(TotalWidth(cfg, tail)));
      Arith.Small(hi, Pow2(Width(cfg, f)));
    } else {
      ExtractLow(cfg, tail, hi, lo, f);
      ExtractJoin(cfg, tail, a, f);
    }
  }

  /** Joining the fields read out of a request index gives the index. */
  lemma {:induction false} JoinExtract(cfg: Config, order: seq<Field>, n: nat, a: Address)
    requires Log2(cfg.BL) <= Log2(cfg.columns) && Distinct(order)
    requires n < Pow2(TotalWidth(cfg, order))
    requires forall f :: f in order ==> Coordinate(a, f) == Extract(cfg, order, n, f)
    ensures Join(cfg, order, a) == n
  {
    if order != [] {
      var tail := order[1..];
      var m := Pow2(TotalWidth(cfg, tail));
      Pow2Add(Width(cfg, order[0]), TotalWidth(cfg, tail));
      Arith.DivBelow(n, Pow2(Width(cfg, order[0])), m);
      Arith.Small(n / m, Pow2(Width(cfg, order[0])));
      Arith.Split(n, m);
      forall f | f in tail ensures Coordinate(a, f) == Extract(cfg, tail, n % m, f) {
        assert f != order[0];
        ExtractLow(cfg, tail, n / m, n % m, f);
      }
      JoinExtract(cfg, tail, n % m, a);
    }
  }

  /** Six slots that hold all six fields hold none twice. */
  lemma AllFieldsDistinct(order: seq<Field>)
    requires AllFields(order)
    ensures Distinct(order)
  {
    if i, j :| 0 <= i < j < |order| && order[i] == order[j] {
      var rest := order[..j] + order[j + 1..];
      var fields := set f | f in rest;
      forall f: Field ensures f in fields { DropDuplicate(order, i, j, f); }
      SetOfSeq(rest);
      SixFields(fields);
    }
  }

  lemma SixFields(s: set<Field>)
    requires forall f: Field :: f in s
    ensures |s| == 6
  {
    var all := {Ch, Ra, Bg, Ba, Ro, Co};
    forall f: Field ensures f in all { match f { case Ch => case Ra => case Bg => case Ba => case Ro => case Co => } }
    assert s == all;
  }

  lemma DropDuplicate(order: seq<Field>, i: nat, j: nat, f: Field)
    requires i < j < |order| && order[i] == order[j] && f in order
    ensures f in order[..j] + order[j + 1..]
  {
    var rest := order[..j] + order[j + 1..];
    var k :| 0 <= k < |order| && order[k] == f;
    if k < j { assert rest[k] == f; }
    else if k == j { assert rest[i] == f; }
    else { assert rest[k - 1] == f; }
  }

  lemma {:induction false} SetOfSeq(s: seq<Field>)
    ensures |set f | f in s| <= |s|
  {
    if s != [] {
      SetOfSeq(s[1..]);
      assert (set f | f in s) == {s[0]} + set f | f in s[1..];
    }
  }

  /** The byte address of the request that holds coordinates `a`. */
  function Compose(cfg: Config, a: Address): int
    requires ValidMapping(cfg)
  {
    Join(cfg, cfg.mapping, a) * Pow2(Shift(cfg))
  }

  /** Coordinates to address and back, for every order of the six fields. */
  lemma DecodeEncode(cfg: Config, a: Address)
    requires ValidMapping(cfg) && Fits(cfg, a)
    ensures 0 <= Compose(cfg, a) < Pow2(Shift(cfg) + TotalWidth(cfg, cfg.mapping))
    ensures Compose(cfg, a) % Pow2(Shift(cfg)) == 0
    ensures AddressMapping(cfg, Compose(cfg, a)) == a
  {
    JoinBounds(cfg, cfg.mapping, a);
    Pow2Add(TotalWidth(cfg, cfg.mapping), Shift(cfg));
    var n := Join(cfg, cfg.mapping, a);
    Arith.Pack(n, 0, Pow2(TotalWidth(cfg, cfg.mapping)), Pow2(Shift(cfg)));
    forall f: Field ensures Extract(cfg, cfg.mapping, n, f) == Coordinate(a, f) {
      ExtractJoin(cfg, cfg.mapping, a, f);
    }
  }

  /** Request-aligned address to coordinates and back: with DecodeEncode, a bijection. */
  lemma EncodeDecode(cfg: Config, hexAddr: nat)
    requires ValidMapping(cfg)
    requires hexAddr < Pow2(Shift(cfg) + TotalWidth(cfg, cfg.mapping)) && hexAddr % Pow2(Shift(cfg)) == 0
    ensures Fits(cfg, AddressMapping(cfg, hexAddr))
    ensures Compose(cfg, AddressMapping(cfg, hexAddr)) == hexAddr
  {
    var m := Pow2(Shift(cfg));
    Pow2Add(TotalWidth(cfg, cfg.mapping), Shift(cfg));
    Arith.DivBelow(hexAddr, Pow2(TotalWidth(cfg, cfg.mapping)), m);
    Arith.Split(hexAddr, m);
    AllFieldsDistinct(cfg.mapping);
    JoinExtract(cfg, cfg.mapping, hexAddr / m, AddressMapping(cfg, hexAddr));
  }

  lemma CoordinateFits(cfg: Config, hexAddr: nat, f: Field, count: int)
    requires ValidMapping(cfg) && 1 <= count && Width(cfg, f) == Log2(count)
    ensures 0 <= Coordinate(AddressMapping(cfg, hexAddr), f) < count
  {
    Log2Bounds(count);
  }

  /** Every address, aligned or not and however large, decodes to coordinates that exist, even
      when a count is not a power of two; its burst of columns lies inside the row. */
  lemma InRange(cfg: Config, hexAddr: nat)
    requires ValidMapping(cfg) && Sized(cfg) && 0 < cfg.channels && 0 < cfg.rows && 0 < cfg.columns
    ensures var a := AddressMapping(cfg, hexAddr);
      && ValidBank(cfg, BankOf(a)) && 0 <= a.channel < cfg.channels && 0 <= a.row < cfg.rows
      && 0 <= a.column && (a.column + 1) * Pow2(Log2(cfg.BL)) <= cfg.columns
  {
    CoordinateFits(cfg, hexAddr, Ch, cfg.channels);
    CoordinateFits(cfg, hexAddr, Ra, cfg.ranks);
    CoordinateFits(cfg, hexAddr, Bg, cfg.bankgroups);
    CoordinateFits(cfg, hexAddr, Ba, cfg.banksPerGroup);
    CoordinateFits(cfg, hexAddr, Ro, cfg.rows);
    ColumnFits(cfg, hexAddr);
  }

  lemma ColumnFits(cfg: Config, hexAddr: nat)
    requires ValidMapping(cfg) && 0 < cfg.columns
    ensures var col := AddressMapping(cfg, hexAddr).column;
      0 <= col && (col + 1) * Pow2(Log2(cfg.BL)) <= cfg.columns
  {
    var col := AddressMapping(cfg, hexAddr).column;
    Log2Bounds(cfg.columns);
    Pow2Add(Width(cfg, Co), Log2(cfg.BL));
    Arith.MulMono(col + 1, Pow2(Width(cfg, Co)), Pow2(Log2(cfg.BL)));
  }

  // ---------------------------------------------------------------- requests

  /** Bytes that one DRAM request moves. */
  function RequestBytes(cfg: Config): int { cfg.busWidth / 8 * cfg.BL }

  lemma {:induction false} Log2Pow(k: nat)
    ensures Log2(Pow2(k)) == k
  {
    if k > 0 { Log2Pow(k - 1); }
  }

  /** The bits left out of the coordinates count the bytes of a request if and only if that is a power of
      two; otherwise they count fewer. */
  lemma ShiftIsRequest(cfg: Config)
    requires 1 <= RequestBytes(cfg)
    ensures Pow2(Shift(cfg)) <= RequestBytes(cfg) < 2 * Pow2(Shift(cfg))
    ensures Pow2(Shift(cfg)) == RequestBytes(cfg) <==> exists k: nat :: RequestBytes(cfg) == Pow2(k)
  {
    Log2Bounds(RequestBytes(cfg));
    if k: nat :| RequestBytes(cfg) == Pow2(k) { Log2Pow(k); }
  }

  /** All bytes of one request have the same coordinates, and the first bytes of two requests that fit the
      memory have not. */
  lemma OneRequest(cfg: Config, x: nat, y: nat)
    requires ValidMapping(cfg) && 1 <= RequestBytes(cfg) && (exists k: nat :: RequestBytes(cfg) == Pow2(k))
    ensures x / RequestBytes(cfg) == y / RequestBytes(cfg) ==> AddressMapping(cfg, x) == AddressMapping(cfg, y)
    ensures x % RequestBytes(cfg) == 0 && y % RequestBytes(cfg) == 0 && x != y
            && x < RequestBytes(cfg) * Pow2(TotalWidth(cfg, cfg.mapping))
            && y < RequestBytes(cfg) * Pow2(TotalWidth(cfg, cfg.mapping))
            ==> AddressMapping(cfg, x) != AddressMapping(cfg, y)
  {
    ShiftIsRequest(cfg);
    Pow2Add(Shift(cfg), TotalWidth(cfg, cfg.mapping));
    hide Extract, ValidMapping, TotalWidth, Shift, RequestBytes, Pow2;
    var n := RequestBytes(cfg);
    if x % n == 0 && y % n == 0 && x < n * Pow2(TotalWidth(cfg, cfg.mapping))
       && y < n * Pow2(TotalWidth(cfg, cfg.mapping)) {
      EncodeDecode(cfg, x);
      EncodeDecode(cfg, y);
    }
  }
}
