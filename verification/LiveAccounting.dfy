/**
 What a submit adds to the open exposure, in USD: the fill at its price, and the rest of the order
 at the limit price. With a venue that fills within size and limit it never exceeds what the cap
 was checked against.
 */
module LiveAccounting {
  import opened Wrappers

  const USD_UNIT := 1_000_000.0

  function Usd(base: int): real { base as real / USD_UNIT }

  datatype Fill = Fill(size: real, price: real)

  /** `deriveLiveFill`: no fill is invented, and a fill without a usable price is none. */
  function DeriveLiveFill(orderPrice: real, filled: real, average: Option<real>): Option<Fill> {
    if filled <= 0.0 then None
    else if average.Some? && 0.0 < average.value <= 1.0 then Some(Fill(filled, average.value))
    else if 0.0 < orderPrice <= 1.0 then Some(Fill(filled, orderPrice))
    else None
  }

  function PositivePart(x: real): real { if x > 0.0 then x else 0.0 }

  /** `submitExposureUsd`. */
  function SubmitExposure(orderSize: real, limitPrice: real, fill: Option<Fill>): real {
    if orderSize <= 0.0 || limitPrice <= 0.0 || limitPrice > 1.0 then 0.0
    else if fill.None? then limitPrice * orderSize
    else
      var filledSize := PositivePart(fill.value.size);
      var fillPrice := if 0.0 < fill.value.price <= 1.0 then fill.value.price else limitPrice;
      fillPrice * filledSize + limitPrice * PositivePart(orderSize - filledSize)
  }

  function Larger(a: real, b: real): real { if a >= b then a else b }

  /** `combineExposure`: the larger of what the caller supplies and what is tracked. */
  function CombineExposure(supplied: Option<real>, tracked: real): (usd: real)
    ensures usd >= 0.0 && usd >= tracked && (supplied.Some? ==> usd >= supplied.value)
    ensures usd == 0.0 || usd == tracked || supplied == Some(usd)
  {
    Larger(if supplied.Some? then PositivePart(supplied.value) else 0.0, PositivePart(tracked))
  }

  lemma TimesMonotone(a: real, b: real, c: real)
    requires a <= b && c >= 0.0
    ensures a * c <= b * c && c * a <= c * b
  {}

  /** A fill within size and limit books at least nothing and at most the order's notional. */
  lemma ExposureAtMostNotional(orderSize: real, limitPrice: real, fill: Option<Fill>)
    requires fill.Some? ==> fill.value.size <= orderSize && fill.value.price <= limitPrice
    requires orderSize >= 0.0 && limitPrice >= 0.0
    ensures 0.0 <= SubmitExposure(orderSize, limitPrice, fill) <= limitPrice * orderSize
  {
    TimesMonotone(0.0, limitPrice, orderSize);
    if orderSize > 0.0 && 0.0 < limitPrice <= 1.0 && fill.Some? {
      var filledSize := PositivePart(fill.value.size);
      var fillPrice := if 0.0 < fill.value.price <= 1.0 then fill.value.price else limitPrice;
      TimesMonotone(fillPrice, limitPrice, filledSize);
      TimesMonotone(0.0, fillPrice, filledSize);
      TimesMonotone(0.0, limitPrice, orderSize - filledSize);
      assert limitPrice * filledSize + limitPrice * (orderSize - filledSize) == limitPrice * orderSize;
    }
  }

  /**
   The bound is tight on both sides: for an order the venue can price, the whole notional is booked
   exactly when nothing is filled at a better price than the limit.
   */
  lemma ExposureIsNotionalIff(orderSize: real, limitPrice: real, fill: Option<Fill>)
    requires orderSize > 0.0 && 0.0 < limitPrice <= 1.0
    requires fill.Some? ==> 0.0 < fill.value.size <= orderSize && 0.0 < fill.value.price <= limitPrice
    ensures SubmitExposure(orderSize, limitPrice, fill) == limitPrice * orderSize
            <==> fill.None? || fill.value.price == limitPrice
  {
    if fill.Some? {
      var filled, price := fill.value.size, fill.value.price;
      assert limitPrice * filled + limitPrice * (orderSize - filled) == limitPrice * orderSize;
      assert limitPrice * filled - price * filled == (limitPrice - price) * filled;
    }
  }
}

/**
 The open-exposure tracker: notional per token, reserved or filled. Exposure leaves it only by
 settlement, or when a durable snapshot replaces the whole book.
 */
module PositionTracker {
  import opened LiveAccounting

  type Book = map<string, real>

  ghost predicate Positive(book: Book) { forall t :: t in book ==> t != "" && book[t] > 0.0 }

  ghost function Sum(book: Book): real
    decreases |book|
  {
    if book == map[] then 0.0
    else
      var t :| t in book;
      book[t] + Sum(book - {t})
  }

  lemma {:induction false} SumRemove(book: Book, t: string)
    requires t in book
    ensures Sum(book) == book[t] + Sum(book - {t})
    decreases |book|
  {
    var u :| u in book && Sum(book) == book[u] + Sum(book - {u});
    if u != t {
      SumRemove(book - {u}, t);
      SumRemove(book - {t}, u);
      assert book - {u} - {t} == book - {t} - {u};
    }
  }

  function ExposureOf(book: Book, t: string): real { if t in book then book[t] else 0.0 }

  lemma SumPut(book: Book, t: string, v: real)
    ensures Sum(book[t := v]) == Sum(book) + v - ExposureOf(book, t)
  {
    SumRemove(book[t := v], t);
    assert book[t := v] - {t} == book - {t};
    if t in book {
      SumRemove(book, t);
    } else {
      assert book - {t} == book;
    }
  }

  lemma {:induction false} SumNonNegative(book: Book)
    requires Positive(book)
    ensures Sum(book) >= 0.0 && (Sum(book) == 0.0 <==> book == map[])
    decreases |book|
  {
    if book != map[] {
      var t :| t in book;
      SumRemove(book, t);
      SumNonNegative(book - {t});
    }
  }

  /** No token is exposed for more than the whole. */
  lemma ExposureWithinSum(book: Book, t: string)
    requires Positive(book)
    ensures 0.0 <= ExposureOf(book, t) <= Sum(book)
  {
    SumNonNegative(book);
    if t in book {
      SumRemove(book, t);
      SumNonNegative(book - {t});
    }
  }

  /** `add`: garbage is ignored. */
  function Added(book: Book, t: string, usd: real): Book {
    if t == "" || usd <= 0.0 then book else book[t := ExposureOf(book, t) + usd]
  }

  /** The entries a snapshot contributes, later ones winning. */
  function Snapshot(entries: seq<(string, real)>): Book {
    if entries == [] then map[]
    else
      var before := Snapshot(entries[..|entries| - 1]);
      var (t, usd) := entries[|entries| - 1];
      if t == "" || usd <= 0.0 then before else before[t := usd]
  }

  function Without(book: Book, tokens: seq<string>): Book { map t | t in book && t !in tokens :: book[t] }

  lemma WithoutNext(book: Book, tokens: seq<string>, i: nat)
    requires i < |tokens|
    ensures Without(book, tokens[..i + 1]) == Without(book, tokens[..i]) - {tokens[i]}
  {
    assert tokens[..i + 1] == tokens[..i] + [tokens[i]];
  }

  /** One token leaving takes its exposure out of the total. */
  lemma LeaveOne(book: Book, t: string)
    requires Positive(book)
    ensures Positive(book - {t})
    ensures Sum(book - {t}) == Sum(book) - ExposureOf(book, t)
    ensures |book - {t}| == |book| - if t in book then 1 else 0
  {
    if t in book {
      SumRemove(book, t);
      assert book.Keys == (book - {t}).Keys + {t};
    } else {
      assert book - {t} == book;
    }
  }

  class Tracker {
    var open: Book

    ghost predicate Valid() reads this { Positive(open) }

    constructor ()
      ensures Valid() && open == map[]
    {
      open := map[];
    }

    method Add(t: string, usd: real)
      modifies this
      ensures open == Added(old(open), t, usd)
      ensures old(Valid()) ==> Valid()
      ensures Sum(open) == Sum(old(open)) + if t == "" then 0.0 else PositivePart(usd)
    {
      if t == "" || usd <= 0.0 { return; }
      SumPut(open, t, ExposureOf(open, t) + usd);
      open := open[t := ExposureOf(open, t) + usd];
    }

    method ReplaceAll(entries: seq<(string, real)>)
      modifies this
      ensures open == Snapshot(entries) && Valid()
    {
      open := map[];
      for i := 0 to |entries|
        invariant open == Snapshot(entries[..i]) && Valid()
      {
        assert entries[..i + 1][..i] == entries[..i];
        var (t, usd) := entries[i];
        if t == "" || usd <= 0.0 { continue; }
        open := open[t := usd];
      }
      assert entries[..|entries|] == entries;
    }

    /** `resolve`: the named tokens leave, and what is reclaimed is exactly what the total loses. */
    method Resolve(tokens: seq<string>) returns (reclaimed: real, count: nat)
      requires Valid()
      modifies this
      ensures Valid() && open == Without(old(open), tokens)
      ensures Sum(open) == Sum(old(open)) - reclaimed && reclaimed >= 0.0
      ensures count + |open| == |old(open)|
    {
      reclaimed, count := 0.0, 0;
      ghost var before := open;
      assert Without(before, tokens[..0]) == before;
      for i := 0 to |tokens|
        invariant Valid() && open == Without(before, tokens[..i])
        invariant Sum(open) == Sum(before) - reclaimed && reclaimed >= 0.0
        invariant count + |open| == |before|
      {
        var id := tokens[i];
        WithoutNext(before, tokens, i);
        LeaveOne(open, id);
        if id in open {
          reclaimed := reclaimed + open[id];
          count := count + 1;
          open := open - {id};
        } else {
          assert open - {id} == open;
        }
      }
      assert tokens[..|tokens|] == tokens;
    }

    /** `total`: the values added up, in whatever order they are kept. */
    method Total() returns (sum: real)
      ensures sum == Sum(open)
    {
      sum := 0.0;
      var rest := open;
      while rest != map[]
        invariant sum + Sum(rest) == Sum(open)
        decreases |rest|
      {
        var t :| t in rest;
        SumRemove(rest, t);
        sum := sum + rest[t];
        rest := rest - {t};
      }
    }
  }
}
