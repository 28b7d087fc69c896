/** The two download strings built from the reply and query buffers
    (app.py:228-239 and app.py:242-252). */
module Export {
  import opened Wrappers
  import opened Text

  /** The document export: the replies joined with newlines, oldest first.
      The loop walks `i` from `n - 1` down to `0` and takes
      `generated[-(i + 1)]`, which is `generated[n - 1 - i]`. Nothing is
      offered while there are no replies. */
  method DocumentExport(generated: seq<string>) returns (doc: Option<string>)
    ensures doc.None? <==> generated == []
    ensures doc.Some? ==> doc.value == Join(generated, "\n")
    ensures doc.Some? && (forall k :: 0 <= k < |generated| ==> '\n' !in generated[k])
            ==> SplitOn(doc.value, "\n") == generated
  {
    if generated == [] {
      return None;
    }
    var n := |generated|;
    var pieces: seq<string> := [];
    var i := n - 1;
    while i >= 0
      invariant -1 <= i < n
      invariant pieces == generated[..n - 1 - i]
    {
      pieces := pieces + [generated[n - (i + 1)]];
      i := i - 1;
    }
    assert pieces == generated;
    doc := Some(Join(pieces, "\n"));
    if forall k :: 0 <= k < |generated| ==> '\n' !in generated[k] {
      SplitJoinLines(generated);
    }
  }

  /** The chat export's lines: for each turn from the newest to the oldest,
      the reply and then its query. */
  function ChatPieces(generated: seq<string>, past: seq<string>): (r: seq<string>)
    requires |generated| <= |past|
    ensures |r| == 2 * |generated|
  {
    if generated == [] then []
    else
      var n := |generated| - 1;
      [generated[n], past[n]] + ChatPieces(generated[..n], past)
  }

  /** Piece `2k` of the chat export is the `k`-th newest reply and piece
      `2k + 1` the query of the same turn. */
  lemma {:induction false} ChatPiecesAt(generated: seq<string>, past: seq<string>, k: nat)
    requires |generated| <= |past| && k < |generated|
    ensures ChatPieces(generated, past)[2 * k] == generated[|generated| - 1 - k]
    ensures ChatPieces(generated, past)[2 * k + 1] == past[|generated| - 1 - k]
  {
    var n := |generated| - 1;
    var rest := ChatPieces(generated[..n], past);
    assert ChatPieces(generated, past) == [generated[n], past[n]] + rest;
    if k > 0 {
      ChatPiecesAt(generated[..n], past, k - 1);
      assert ChatPieces(generated, past)[2 * k] == rest[2 * (k - 1)];
      assert ChatPieces(generated, past)[2 * k + 1] == rest[2 * (k - 1) + 1];
    }
  }

  /** The chat export: reply and query interleaved, newest turn first,
      joined with newlines. Nothing is offered while there are no replies. */
  method ChatExport(generated: seq<string>, past: seq<string>) returns (chat: Option<string>)
    requires |generated| <= |past|
    ensures chat.None? <==> generated == []
    ensures chat.Some? ==> chat.value == Join(ChatPieces(generated, past), "\n")
  {
    if generated == [] {
      return None;
    }
    var n := |generated|;
    var pieces: seq<string> := [];
    var i := n - 1;
    while i >= 0
      invariant -1 <= i < n
      invariant |pieces| == 2 * (n - 1 - i)
      invariant forall k :: 0 <= k < n - 1 - i ==>
                  pieces[2 * k] == generated[n - 1 - k] && pieces[2 * k + 1] == past[n - 1 - k]
    {
      pieces := pieces + [generated[i]];
      pieces := pieces + [past[i]];
      i := i - 1;
    }
    var expected := ChatPieces(generated, past);
    forall j | 0 <= j < 2 * n ensures pieces[j] == expected[j] {
      var k := j / 2;
      assert j == 2 * k || j == 2 * k + 1;
      ChatPiecesAt(generated, past, k);
    }
    assert pieces == expected;
    chat := Some(Join(pieces, "\n"));
  }

  /** When no reply and no query contains a newline, splitting the chat
      export at newlines gives back exactly its pieces, so (by
      `ChatPiecesAt`) line `2k` is the `k`-th newest reply and line `2k + 1`
      its query. */
  lemma ChatExportLines(generated: seq<string>, past: seq<string>)
    requires 0 < |generated| <= |past|
    requires forall k :: 0 <= k < |generated| ==> '\n' !in generated[k] && '\n' !in past[k]
    ensures SplitOn(Join(ChatPieces(generated, past), "\n"), "\n") == ChatPieces(generated, past)
  {
    ChatPiecesNewlineFree(generated, past);
    SplitJoinLines(ChatPieces(generated, past));
  }

  /** Newline-free replies and queries give newline-free pieces. */
  lemma ChatPiecesNewlineFree(generated: seq<string>, past: seq<string>)
    requires |generated| <= |past|
    requires forall k :: 0 <= k < |generated| ==> '\n' !in generated[k] && '\n' !in past[k]
    ensures forall j :: 0 <= j < |ChatPieces(generated, past)| ==> '\n' !in ChatPieces(generated, past)[j]
  {
    forall j | 0 <= j < |ChatPieces(generated, past)| ensures '\n' !in ChatPieces(generated, past)[j] {
      var k := j / 2;
      assert j == 2 * k || j == 2 * k + 1;
      ChatPiecesAt(generated, past, k);
    }
  }
}
