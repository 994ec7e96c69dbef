/** The progress of outgoing pages, kept in place. */
module EcmProgress {
  import opened Words
  import opened EcmModel

  function Marked(flags: seq<bool>): set<byte>
    requires |flags| == 256
  {
    set n: byte | 0 <= n < 256 && flags[n]
  }

  lemma MarkOne(flags: seq<bool>, n: byte)
    requires |flags| == 256
    ensures Marked(flags[n := true]) == Marked(flags) + {n}
  {
  }

  /** Rows of the current page that have left, out of all it has. */
  datatype PageProgress = PageProgress(page: nat, rows: nat, totalRows: nat)

  function Percent(rows: nat, total: nat): nat
    requires total > 0
  {
    rows * 100 / total
  }

  /** What a report is judged by: the page, and the percentage of its rows decoded. */
  function Key(decoder: Decoder, decoded: int): (nat, nat)
    requires decoder.totalRows > 0
  {
    (decoder.page, Percent(Min(Max(decoded, 0), decoder.totalRows), decoder.totalRows))
  }

  class Progress {
    var decoder: Option<Decoder>
    var pending: Option<seq<byte>>
    const seen: array<bool>
    var awaitingAck: bool
    var imageReady: bool
    var reported: Option<(nat, nat)>

    ghost predicate Valid()
      reads this
    {
      seen.Length == 256 && (decoder.Some? ==> decoder.value.totalRows > 0)
    }

    ghost function View(): State
      requires Valid()
      reads this, seen
    {
      State(decoder, pending, Marked(seen[..]), awaitingAck, imageReady)
    }

    constructor ()
      ensures Valid() && fresh(seen) && View() == State(None, None, {}, false, false) && reported == None
    {
      seen := new bool[256](_ => false);
      decoder, pending, awaitingAck, imageReady, reported := None, None, false, false, None;
    }

    method Forget()
      requires Valid()
      modifies seen
      ensures Marked(seen[..]) == {}
    {
      for i := 0 to 256
        invariant forall k :: 0 <= k < i ==> !seen[k]
      {
        seen[i] := false;
      }
    }

    /** Credit the frame that has now left. */
    method Flush()
      requires Valid()
      modifies `pending, `decoder
      ensures Valid() && View() == Flushed(old(View()))
    {
      if pending.Some? {
        if decoder.Some? {
          decoder := Some(decoder.value.(fed := decoder.value.fed + pending.value));
        }
        pending := None;
      }
    }

    method Keep(stats: Stats, number: byte, bytes: seq<byte>)
      requires Valid()
      modifies this, seen
      ensures Valid() && View() == OnData(old(View()), stats, number, bytes)
    {
      if decoder.None? || decoder.value.page != Page(stats) {
        decoder := NewDecoder(stats);
        Forget();
      }
      if !seen[number] && decoder.Some? {
        MarkOne(seen[..], number);
        seen[number] := true;
        pending := Some(bytes);
      }
    }

    /** A frame on its way out, or one received. */
    method Frame(stats: Stats, incoming: bool, frame: seq<byte>)
      requires Valid()
      modifies this, seen
      ensures Valid() && View() == OnFrame(old(View()), stats, incoming, frame)
    {
      if |frame| < 3 {
        return;
      }
      var kind := frame[2] - frame[2] % 2;
      if !stats.ecm {
        if incoming && kind == CFR {
          imageReady, decoder := true, None;
        } else if incoming && kind == FTT {
          imageReady := false;
        }
        return;
      }
      if incoming {
        if kind == MCF && awaitingAck {
          Forget();
          awaitingAck := false;
        }
        return;
      }
      Flush();
      if kind == PPS {
        awaitingAck := true;
      }
      if kind == FCD && |frame| >= 5 {
        Keep(stats, frame[3], frame[4..]);
      }
    }

    method NonEcmData(stats: Stats, bytes: seq<byte>)
      requires Valid()
      modifies `decoder
      ensures Valid() && View() == OnPlainData(old(View()), stats, bytes)
    {
      if stats.ecm || !imageReady {
        return;
      }
      if decoder.None? || decoder.value.page != Page(stats) {
        decoder := NewDecoder(stats);
      }
      if decoder.Some? {
        decoder := Some(decoder.value.(fed := decoder.value.fed + bytes));
      }
    }

    /** A report when the page or its percentage changed; `decoded` is the row count of
        the foreign decoder. */
    method Update(decoded: int) returns (progress: Option<PageProgress>)
      requires Valid()
      modifies `reported
      ensures Valid() && View() == old(View())
      ensures progress.Some? ==>
        && decoder.Some? && progress.value.page == decoder.value.page && progress.value.totalRows == decoder.value.totalRows
        && progress.value.rows == Min(Max(decoded, 0), decoder.value.totalRows)
        && reported == Some((progress.value.page, Percent(progress.value.rows, progress.value.totalRows)))
        && reported != old(reported)
      ensures progress.None? ==> reported == old(reported)
      ensures progress.None? <==> decoder.None? || old(reported) == Some(Key(decoder.value, decoded))
    {
      if decoder.None? {
        return None;
      }
      var total := decoder.value.totalRows;
      var rows := Min(Max(decoded, 0), total);
      var key := (decoder.value.page, Percent(rows, total));
      if reported == Some(key) {
        return None;
      }
      reported := Some(key);
      progress := Some(PageProgress(decoder.value.page, rows, total));
    }
  }
}
