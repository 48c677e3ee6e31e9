/**
 * The filter panel: the price range and lock-size state, the query it sends, and
 * the rule by which a reply replaces the product list.
 */
module Filter {
  import opened Wrappers
  import opened Js

  datatype LockType = LockType(id: int, name: string, price: int, newPrice: int, photos: seq<string>,
                               description: string, hasGift: Option<bool>)

  datatype LockSize = LockSize(a: int, b: int, c: int)
  datatype SizeKey = A | B | C

  type PriceRange = (int, int)

  const InitialPriceRange: PriceRange := (100000, 250000)
  const InitialLockSize := LockSize(0, 0, 0)
  const Endpoint := "http://8.210.211.217:8080/api/v1/lock/get-all-by-filter"

  function SizeOf(s: LockSize, k: SizeKey): int {
    match k
    case A => s.a
    case B => s.b
    case C => s.c
  }

  /** `{ ...prev, [k]: v }`: dimension `k` becomes `v`, the other two stay. */
  function WithSize(prev: LockSize, k: SizeKey, v: int): (r: LockSize)
    ensures SizeOf(r, k) == v
    ensures forall j :: j != k ==> SizeOf(r, j) == SizeOf(prev, j)
  {
    match k
    case A => prev.(a := v)
    case B => prev.(b := v)
    case C => prev.(c := v)
  }

  /**
   * The URL `fetchProducts` requests: the endpoint, '?', and a query string that
   * reads back as startPrice, endPrice, a, b and c, in that order and nothing else.
   */
  function FetchUrl(range: PriceRange, size: LockSize): (url: string)
    ensures |url| > |Endpoint| && url[..|Endpoint| + 1] == Endpoint + "?"
    ensures QueryParams(url[|Endpoint| + 1..]) ==
      [("startPrice", Show(range.0)), ("endPrice", Show(range.1)),
       ("a", Show(size.a)), ("b", Show(size.b)), ("c", Show(size.c))]
  {
    var url := Endpoint + "?" + QueryString(range, size);
    FetchUrlParams(range, size);
    assert url[..|Endpoint| + 1] == Endpoint + "?";
    assert url[|Endpoint| + 1..] == QueryString(range, size);
    url
  }

  /** The parameters of the request, in the order the template literal writes them. */
  function Fields(range: PriceRange, size: LockSize): seq<(string, int)> {
    [("startPrice", range.0), ("endPrice", range.1), ("a", size.a), ("b", size.b), ("c", size.c)]
  }

  /** One `key=${value}` piece of the template. */
  function Segment(f: (string, int)): string {
    f.0 + "=" + Show(f.1)
  }

  /** Each field as `&key=${value}`, concatenated. */
  function Params(fs: seq<(string, int)>): string {
    if fs == [] then "" else "&" + Segment(fs[0]) + Params(fs[1..])
  }

  /**
   * The text after '?' in the request:
   * `&startPrice=${lo}&endPrice=${hi}&a=${a}&b=${b}&c=${c}`.
   */
  function QueryString(range: PriceRange, size: LockSize): string {
    Params(Fields(range, size))
  }

  // ------------------------------------------- reading the query string back

  function IndexOf(s: string, c: char): (i: nat)
    requires c in s
    ensures i < |s| && s[i] == c && c !in s[..i]
  {
    if s[0] == c then 0 else 1 + IndexOf(s[1..], c)
  }

  /** `s.split(c)`. */
  function SplitOn(s: string, c: char): seq<string>
    decreases |s|
  {
    if c in s then var i := IndexOf(s, c); [s[..i]] + SplitOn(s[i + 1..], c) else [s]
  }

  /** One `key=value` segment, cut at its first '='. */
  function Pair(segment: string): (string, string) {
    if '=' in segment then var i := IndexOf(segment, '='); (segment[..i], segment[i + 1..]) else (segment, "")
  }

  /** The key/value pairs of the segments, skipping empty segments. */
  function Pairs(segments: seq<string>): seq<(string, string)> {
    if segments == [] then []
    else (if segments[0] == "" then [] else [Pair(segments[0])]) + Pairs(segments[1..])
  }

  /**
   * The parameters a reader of the query string sees, as `URLSearchParams` does
   * for text that needs no percent-decoding: split at '&', empty segments
   * skipped, each cut at its first '='.
   */
  function QueryParams(query: string): seq<(string, string)> {
    Pairs(SplitOn(query, '&'))
  }

  lemma {:induction false} IndexOfPrefix(a: string, c: char, b: string)
    requires c !in a
    ensures c in a + [c] + b && IndexOf(a + [c] + b, c) == |a|
  {
    var s := a + [c] + b;
    assert s[|a|] == c;
    if |a| > 0 {
      assert s[1..] == a[1..] + [c] + b;
      IndexOfPrefix(a[1..], c, b);
    }
  }

  lemma SplitCons(a: string, c: char, b: string)
    requires c !in a
    ensures SplitOn(a + [c] + b, c) == [a] + SplitOn(b, c)
  {
    var s := a + [c] + b;
    IndexOfPrefix(a, c, b);
    assert s[..|a|] == a;
    assert s[|a| + 1..] == b;
  }

  lemma ShowHasNoSeparator(n: int)
    ensures '&' !in Show(n) && '=' !in Show(n) && '?' !in Show(n)
  {
  }

  /** A key that survives the round trip: not empty, and free of the separators. */
  predicate PlainKey(k: string) {
    k != "" && '&' !in k && '=' !in k
  }

  function Segments(fs: seq<(string, int)>): (r: seq<string>)
    ensures |r| == |fs| && forall i :: 0 <= i < |fs| ==> r[i] == Segment(fs[i])
  {
    if fs == [] then [] else [Segment(fs[0])] + Segments(fs[1..])
  }

  /** The pairs a reader should see: each key with its value written out in decimal. */
  function Written(fs: seq<(string, int)>): (r: seq<(string, string)>)
    ensures |r| == |fs| && forall i :: 0 <= i < |fs| ==> r[i] == (fs[i].0, Show(fs[i].1))
  {
    if fs == [] then [] else [(fs[0].0, Show(fs[0].1))] + Written(fs[1..])
  }

  lemma SplitLead(seg: string, tail: string)
    ensures SplitOn("&" + seg + tail, '&') == [""] + SplitOn(seg + tail, '&')
  {
    SplitCons("", '&', seg + tail);
    assert "&" + seg + tail == "" + ['&'] + (seg + tail);
  }

  lemma SplitAfter(seg: string, rest: string)
    requires '&' !in seg
    ensures SplitOn(seg + ("&" + rest), '&') == [seg] + SplitOn(rest, '&')
  {
    SplitCons(seg, '&', rest);
    assert seg + ("&" + rest) == seg + ['&'] + rest;
  }

  /** `"&" + seg + tail` splits into "", `seg`, and the pieces of `tail` after its own leading "". */
  lemma SplitPiece(seg: string, tail: string)
    requires '&' !in seg
    requires tail == [] || tail[0] == '&'
    ensures SplitOn("&" + seg + tail, '&') == [""] + [seg] + SplitOn(tail, '&')[1..]
  {
    SplitLead(seg, tail);
    if tail == [] {
      assert seg + tail == seg;
      assert SplitOn(seg, '&') == [seg];
      assert SplitOn(tail, '&') == [""];
    } else {
      var rest := tail[1..];
      assert tail == "&" + rest;
      SplitAfter(seg, rest);
      SplitLead("", rest);
      assert "&" + "" + rest == tail;
    }
  }

  lemma {:induction false} SplitParams(fs: seq<(string, int)>)
    requires forall i :: 0 <= i < |fs| ==> PlainKey(fs[i].0)
    ensures SplitOn(Params(fs), '&') == [""] + Segments(fs)
  {
    if fs != [] {
      var seg, tail := Segment(fs[0]), Params(fs[1..]);
      ShowHasNoSeparator(fs[0].1);
      assert '&' !in seg;
      SplitParams(fs[1..]);
      assert tail == [] || tail[0] == '&';
      SplitPiece(seg, tail);
    }
  }

  lemma {:induction false} PairsOfSegments(fs: seq<(string, int)>)
    requires forall i :: 0 <= i < |fs| ==> PlainKey(fs[i].0)
    ensures Pairs(Segments(fs)) == Written(fs)
  {
    if fs != [] {
      PairOf(fs[0].0, fs[0].1);
      assert Segments(fs)[1..] == Segments(fs[1..]);
      PairsOfSegments(fs[1..]);
    }
  }

  lemma PairOf(key: string, n: int)
    requires '=' !in key
    ensures Pair(Segment((key, n))) == (key, Show(n))
  {
    IndexOfPrefix(key, '=', Show(n));
    var s := Segment((key, n));
    assert s == key + ['='] + Show(n);
    assert s[..|key|] == key;
    assert s[|key| + 1..] == Show(n);
  }

  /** Any list of plain keys written as `&key=value` reads back as those keys with those values. */
  lemma QueryParamsOfParams(fs: seq<(string, int)>)
    requires forall i :: 0 <= i < |fs| ==> PlainKey(fs[i].0)
    ensures QueryParams(Params(fs)) == Written(fs)
    ensures forall i :: 0 <= i < |fs| ==> ParseInt(Written(fs)[i].1) == Some(fs[i].1)
  {
    SplitParams(fs);
    assert ([""] + Segments(fs))[0] == "";
    assert ([""] + Segments(fs))[1..] == Segments(fs);
    PairsOfSegments(fs);
    forall i | 0 <= i < |fs|
      ensures ParseInt(Written(fs)[i].1) == Some(fs[i].1)
    {
      ShowReadsBack(fs[i].1);
    }
  }

  /**
   * The request carries startPrice = range[0], endPrice = range[1], then a, b and
   * c of the lock size, in that order and nothing else (each value, by
   * `QueryParamsOfParams`, reads back with `parseInt` as the number it came from).
   */
  lemma FetchUrlParams(range: PriceRange, size: LockSize)
    ensures QueryParams(QueryString(range, size)) ==
      [("startPrice", Show(range.0)), ("endPrice", Show(range.1)),
       ("a", Show(size.a)), ("b", Show(size.b)), ("c", Show(size.c))]
  {
    var fs := Fields(range, size);
    assert forall i :: 0 <= i < |fs| ==> PlainKey(fs[i].0);
    QueryParamsOfParams(fs);
    WrittenFields(range, size);
  }

  lemma WrittenFields(range: PriceRange, size: LockSize)
    ensures Written(Fields(range, size)) ==
      [("startPrice", Show(range.0)), ("endPrice", Show(range.1)),
       ("a", Show(size.a)), ("b", Show(size.b)), ("c", Show(size.c))]
  {
    var w := Written(Fields(range, size));
    assert w == [w[0], w[1], w[2], w[3], w[4]];
  }

  lemma ShowReadsBack(n: int)
    ensures ParseInt(Show(n)) == Some(n)
  {
    ParseIntShow(n, "");
    assert Show(n) + "" == Show(n);
  }

  // ---------------------------------------------------------- the component

  /** What `fetch` followed by `response.json()` gave: a body, or an exception. */
  datatype FetchReply =
    | Json(success: bool, data: Option<seq<LockType>>)  // `success` as truthiness; `data` Some iff an array
    | Thrown

  class FilterPage {
    var filteredProducts: seq<LockType>
    var loadingProducts: bool
    var priceRange: PriceRange
    var lockSize: LockSize

    /** The initial state: range [100000, 250000], sizes 0, no products, not loading. */
    constructor ()
      ensures priceRange == InitialPriceRange && lockSize == InitialLockSize
      ensures filteredProducts == [] && !loadingProducts
    {
      filteredProducts := [];
      loadingProducts := false;
      priceRange := InitialPriceRange;
      lockSize := InitialLockSize;
    }

    /** `onPriceChange`: the whole range is replaced. */
    method OnPriceChange(value: PriceRange)
      modifies this
      ensures priceRange == value
      ensures lockSize == old(lockSize) && filteredProducts == old(filteredProducts)
      ensures loadingProducts == old(loadingProducts)
    {
      priceRange := value;
    }

    /** `onLockSizeChange(k, v)`. */
    method OnLockSizeChange(k: SizeKey, v: int)
      modifies this
      ensures lockSize == WithSize(old(lockSize), k, v)
      ensures priceRange == old(priceRange) && filteredProducts == old(filteredProducts)
      ensures loadingProducts == old(loadingProducts)
    {
      lockSize := WithSize(lockSize, k, v);
    }

    /**
     * `fetchProducts`: loading is on while the request is out and off afterwards on
     * every path; the list is replaced only by a body whose `success` is truthy and
     * whose `data` is an array; an exception shows an error toast.
     */
    method FetchProducts(reply: FetchReply) returns (url: string, loadingWhileFetching: bool, errorShown: bool)
      modifies this
      ensures url == FetchUrl(priceRange, lockSize)
      ensures loadingWhileFetching && !loadingProducts
      ensures priceRange == old(priceRange) && lockSize == old(lockSize)
      ensures filteredProducts == if reply.Json? && reply.success && reply.data.Some? then reply.data.value
                                  else old(filteredProducts)
      ensures errorShown <==> reply.Thrown?
    {
      loadingProducts := true;
      url := FetchUrl(priceRange, lockSize);
      loadingWhileFetching := loadingProducts;
      errorShown := false;
      match reply {
        case Json(success, data) =>
          if success && data.Some? {
            filteredProducts := data.value;
          }
        case Thrown =>
          errorShown := true;
      }
      loadingProducts := false;
    }
  }
}
