/**
 The demo page source: a fixed list of lines served as paginated responses.
 The lines themselves (a song's lyrics, split at newlines) are a parameter.
 */
module NetworkService {
  import opened Pagination

  /** One unit of a paginated response, carrying one line. */
  datatype Item = Item(value: string)

  function Min(a: nat, b: nat): (m: nat) {
    if a <= b then a else b
  }

  /** Every line as an item, in order. */
  function ItemsOf(lines: seq<string>): (r: seq<Item>)
    ensures |r| == |lines|
    ensures forall i :: 0 <= i < |lines| ==> r[i] == Item(lines[i])
  {
    seq(|lines|, i requires 0 <= i < |lines| => Item(lines[i]))
  }

  /** `NetworkService.items(offset:size:)`: the items of the lines from
      `offset` up to `offset + size`, cut at the end of the list, together with
      the number of lines. An offset past the end makes the range construction
      trap, so it is the caller's obligation. */
  function FetchItems(lines: seq<string>, offset: nat, size: nat): (r: Response<Item>)
    requires offset <= |lines|
    ensures r.total == |lines|
    ensures r.items == ItemsOf(lines)[offset .. Min(offset + size, |lines|)]
    ensures |r.items| <= size
    ensures offset + size <= |lines| ==> |r.items| == size
    ensures offset + size > |lines| ==> offset + |r.items| == |lines|
  {
    var upper := Min(offset + size, |lines|);
    Response(seq(upper - offset, i requires 0 <= i < upper - offset => Item(lines[offset + i])), |lines|)
  }
}
