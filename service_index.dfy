/** The bot's string helpers (`service/index.ts`): `listContent`, `cancelable` and
    `toLength`. */
module ServiceIndex {
  import opened Text

  /** The lines the mapper gives for `data`, in order; the mapper gets each element with
      its index and returns one line or several. */
  function Entries<T>(data: seq<T>, mapper: (T, nat) -> seq<string>): seq<string>
    decreases |data|
  {
    if data == [] then []
    else Entries(data[..|data| - 1], mapper) + mapper(data[|data| - 1], |data| - 1)
  }

  /** What `listContent` returns: the header and a line break, then the mapped lines,
      joined by line breaks. */
  function Listing<T>(header: string, data: seq<T>, mapper: (T, nat) -> seq<string>): string {
    Join([header + "\n"] + Entries(data, mapper), "\n")
  }

  /** `listContent` */
  method ListContent<T>(header: string, data: seq<T>, mapper: (T, nat) -> seq<string>) returns (r: string)
    ensures r == Listing(header, data, mapper)
  {
    var result := [header + "\n"];
    for i := 0 to |data|
      invariant result == [header + "\n"] + Entries(data[..i], mapper)
    {
      assert data[..i + 1][..i] == data[..i];
      result := result + mapper(data[i], i);
    }
    assert data[..|data|] == data;
    r := Join(result, "\n");
  }

  /** With no data the listing is the header and a line break. */
  lemma ListingEmpty<T>(header: string, mapper: (T, nat) -> seq<string>)
    ensures Listing(header, [], mapper) == header + "\n"
  {
  }

  /** A listing always starts with its header line; when there is at least one line
      after it, the two are separated by an empty line. */
  lemma ListingStartsWithHeader<T>(header: string, data: seq<T>, mapper: (T, nat) -> seq<string>)
    ensures StartsWith(Listing(header, data, mapper), header + "\n")
    ensures Entries(data, mapper) != [] ==>
      Listing(header, data, mapper) == header + "\n" + "\n" + Join(Entries(data, mapper), "\n")
  {
    var lines := Entries(data, mapper);
    if lines != [] {
      JoinCons(header + "\n", lines, "\n");
      assert (header + "\n" + "\n" + Join(lines, "\n"))[..|header + "\n"|] == header + "\n";
    }
  }

  /** A mapper that gives one line per element yields the elements' lines in order, one
      each. */
  lemma {:induction false} EntriesOnePerElement<T>(data: seq<T>, mapper: (T, nat) -> seq<string>)
    requires forall i :: 0 <= i < |data| ==> |mapper(data[i], i)| == 1
    ensures |Entries(data, mapper)| == |data|
    ensures forall i :: 0 <= i < |data| ==> Entries(data, mapper)[i] == mapper(data[i], i)[0]
    decreases |data|
  {
    if data != [] {
      var init := data[..|data| - 1];
      assert forall i :: 0 <= i < |init| ==> init[i] == data[i];
      EntriesOnePerElement(init, mapper);
    }
  }

  /** `cancelable`: the input followed by an empty line and the cancel command. */
  function Cancelable(input: string): (r: string)
    ensures |r| == |input| + 11 && StartsWith(r, input) && EndsWith(r, "\n\n[/cancel]")
  {
    input + "\n\n[/cancel]"
  }

  /** What `toLength` returns: shorter input padded with spaces, longer input cut to
      leave room for "..." (to nothing when the target is under 3), and input of the
      target length unchanged. */
  function Fitted(input: string, length: int): (r: string)
    ensures |input| == length ==> r == input
    ensures |input| < length ==> |r| == length && r[..|input|] == input && forall i :: |input| <= i < length ==> r[i] == ' '
    ensures |input| > length && length >= 3 ==> |r| == length
    ensures |input| > length && length < 3 ==> r == "..."
    ensures |input| > length ==> EndsWith(r, "...") && r[..|r| - 3] == input[..|r| - 3]
  {
    if |input| < length then input + Repeat(' ', length - |input|)
    else if |input| > length then input[..if length < 3 then 0 else length - 3] + "..."
    else input
  }

  /** `toLength` */
  method ToLength(input: string, length: int) returns (r: string)
    ensures r == Fitted(input, length)
  {
    r := input;
    if |r| < length {
      r := r + Repeat(' ', length - |r|);
    }
    if |r| > length {
      r := r[..if length < 3 then 0 else length - 3] + "...";
    }
  }
}
