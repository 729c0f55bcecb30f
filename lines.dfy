/** The rendered document as a sequence of lines (each line without its
    trailing newline), and the two ways a reader takes such a block apart:
    `key: value` fields and marker-led list items. */
module Lines {
  import opened Wrappers
  import opened Strings

  /** The rest of the first line that starts with key, if any line does. */
  function FieldValue(lines: seq<string>, key: string): (r: Option<string>)
  {
    if lines == [] then None
    else if HasPrefix(lines[0], key) then Some(lines[0][|key|..])
    else FieldValue(lines[1..], key)
  }

  /** A line that differs from key at a position both reach does not start with key. */
  lemma Differ(line: string, key: string, i: nat)
    requires i < |line| && i < |key| && line[i] != key[i]
    ensures !HasPrefix(line, key)
  {
    if |key| <= |line| {
      assert line[..|key|][i] != key[i];
    }
  }

  /** A reader looks through a block part by part. */
  lemma {:induction false} FieldValueConcat(a: seq<string>, b: seq<string>, key: string)
    ensures FieldValue(a + b, key) == if FieldValue(a, key).Some? then FieldValue(a, key) else FieldValue(b, key)
    decreases |a|
  {
    if a == [] {
      assert a + b == b;
    } else {
      FieldValueConcat(a[1..], b, key);
      assert (a + b)[1..] == a[1..] + b;
    }
  }

  /** A reader finds nothing in a block where no line starts with key. */
  lemma {:induction false} FieldValueNone(lines: seq<string>, key: string)
    requires forall i | 0 <= i < |lines| :: !HasPrefix(lines[i], key)
    ensures FieldValue(lines, key) == None
    decreases |lines|
  {
    if lines != [] {
      FieldValueNone(lines[1..], key);
    }
  }

  /** A list rendered one item per line, each line led by marker. */
  function ListLines(marker: string, items: seq<string>): (r: seq<string>)
    ensures |r| == |items|
    ensures forall i | 0 <= i < |r| :: HasPrefix(r[i], marker)
  {
    seq(|items|, i requires 0 <= i < |items| => marker + items[i])
  }

  /** The loop that writes one list item per line. */
  method ListOut(marker: string, items: seq<string>) returns (out: seq<string>)
    ensures out == ListLines(marker, items)
  {
    out := [];
    for i := 0 to |items|
      invariant out == ListLines(marker, items[..i])
    {
      out := out + [marker + items[i]];
    }
    assert items[..|items|] == items;
  }

  /** Reads a list back: the items after the marker, in order, or None when
      some line does not start with the marker. */
  function ListItems(lines: seq<string>, marker: string): (r: Option<seq<string>>)
  {
    if lines == [] then Some([])
    else if !HasPrefix(lines[|lines| - 1], marker) then None
    else match ListItems(lines[..|lines| - 1], marker)
      case None => None
      case Some(items) => Some(items + [lines[|lines| - 1][|marker|..]])
  }

  /** Reading a rendered list gives exactly its items, in order. */
  lemma {:induction false} ListRoundTrip(marker: string, items: seq<string>)
    ensures ListItems(ListLines(marker, items), marker) == Some(items)
    decreases |items|
  {
    if items != [] {
      var n := |items| - 1;
      ListRoundTrip(marker, items[..n]);
      assert ListLines(marker, items)[..n] == ListLines(marker, items[..n]);
      assert (marker + items[n])[|marker|..] == items[n];
      assert items[..n] + [items[n]] == items;
    }
  }

  /** A line without the marker anywhere in the block makes it unreadable as a list. */
  lemma {:induction false} ListItemsNeedMarker(lines: seq<string>, marker: string, k: int)
    requires 0 <= k < |lines| && !HasPrefix(lines[k], marker)
    ensures ListItems(lines, marker) == None
    decreases |lines|
  {
    if k < |lines| - 1 {
      ListItemsNeedMarker(lines[..|lines| - 1], marker, k);
    }
  }
}
