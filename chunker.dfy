/** `_split_text`: the extracted document text packed line by line into
    chunks of about `CHUNK_SIZE` characters, numbered `prefix1`, `prefix2`, ... */
module Chunker {
  import opened Text
  import PyDict

  const ChunkSize: nat := 1200

  /** `"\n".join(buf)` */
  function Joined(buf: seq<string>): string
  {
    JoinWith(buf, "\n")
  }

  /** The loop state `(closed buffers, open buffer)` after the lines so far. */
  function Pack(lines: seq<string>): (seq<seq<string>>, seq<string>)
  {
    if lines == [] then ([], [])
    else
      var (done, buf) := Pack(lines[..|lines| - 1]);
      var para := lines[|lines| - 1];
      if |Joined(buf)| + |para| > ChunkSize then (done + [buf], [para])
      else (done, buf + [para])
  }

  /** The buffers `_split_text` turns into chunks: the closed ones, then the
      open one unless it is empty. */
  function Groups(lines: seq<string>): seq<seq<string>>
  {
    var (done, buf) := Pack(lines);
    if buf != [] then done + [buf] else done
  }

  /** `(f"{prefix}{idx}", "\n".join(buf).strip())` for each buffer, `idx` from 1. */
  function Render(groups: seq<seq<string>>, prefix: string): (chunks: seq<(string, string)>)
    ensures |chunks| == |groups|
    ensures forall i :: 0 <= i < |groups| ==>
      chunks[i] == (prefix + NatToString(i + 1), Strip(Joined(groups[i])))
  {
    seq(|groups|, i requires 0 <= i < |groups| => (prefix + NatToString(i + 1), Strip(Joined(groups[i]))))
  }

  /** The chunks of `text`. */
  function Chunks(text: string, prefix: string): seq<(string, string)>
  {
    Render(Groups(SplitLines(text)), prefix)
  }

  /** The buffer loop of `_split_text`. */
  method SplitText(text: string, prefix: string) returns (chunks: seq<(string, string)>)
    ensures chunks == Chunks(text, prefix)
  {
    var lines := SplitLines(text);
    chunks := [];
    var idx: nat := 1;
    var buf: seq<string> := [];
    var i := 0;
    while i < |lines|
      invariant 0 <= i <= |lines|
      invariant (Pack(lines[..i]).1 == buf)
      invariant chunks == Render(Pack(lines[..i]).0, prefix)
      invariant idx == |chunks| + 1
    {
      assert lines[..i + 1][..i] == lines[..i];
      var para := lines[i];
      if |Joined(buf) + para| > ChunkSize {
        chunks := chunks + [(prefix + NatToString(idx), Strip(Joined(buf)))];
        idx := idx + 1;
        buf := [para];
      } else {
        buf := buf + [para];
      }
      i := i + 1;
    }
    assert lines[..|lines|] == lines;
    if buf != [] {
      chunks := chunks + [(prefix + NatToString(idx), Strip(Joined(buf)))];
    }
  }

  function Flatten(groups: seq<seq<string>>): seq<string>
  {
    if groups == [] then [] else groups[0] + Flatten(groups[1..])
  }

  /** Every line after a buffer's first was admitted because the buffer so
      far plus that line was at most `ChunkSize` characters. */
  predicate Fits(buf: seq<string>)
  {
    forall k :: 1 <= k < |buf| ==> |Joined(buf[..k])| + |buf[k]| <= ChunkSize
  }

  /** Greedy packing: each buffer took every line it could, so every buffer
      after the first starts with a line that did not fit in the one before. */
  predicate Greedy(groups: seq<seq<string>>)
  {
    && (forall i :: 0 <= i < |groups| ==> Fits(groups[i]))
    && (forall i :: 1 <= i < |groups| ==>
          groups[i] != [] && |Joined(groups[i - 1])| + |groups[i][0]| > ChunkSize)
  }

  lemma {:induction false} FlattenAppend(groups: seq<seq<string>>, g: seq<string>)
    ensures Flatten(groups + [g]) == Flatten(groups) + g
  {
    if groups != [] {
      assert (groups + [g])[1..] == groups[1..] + [g];
      FlattenAppend(groups[1..], g);
    } else {
      assert [g][1..] == [];
    }
  }

  lemma {:induction false} JoinedAppend(buf: seq<string>, para: string)
    requires buf != []
    ensures Joined(buf + [para]) == Joined(buf) + "\n" + para
  {
    var b := buf + [para];
    if |buf| == 1 {
      assert b == [buf[0], para];
      assert Joined(b) == JoinWith(b, "\n") == b[0] + "\n" + JoinWith(b[1..], "\n");
      assert b[1..] == [para];
    } else {
      assert b[1..] == buf[1..] + [para];
      JoinedAppend(buf[1..], para);
      assert Joined(b) == JoinWith(b, "\n") == b[0] + "\n" + JoinWith(b[1..], "\n");
      assert Joined(buf) == JoinWith(buf, "\n") == buf[0] + "\n" + JoinWith(buf[1..], "\n");
    }
  }

  /** The buffers hold the lines read, in order, and the open buffer is
      empty only before the first line. */
  lemma {:induction false} PackFlatten(lines: seq<string>)
    ensures var (done, buf) := Pack(lines);
      && Flatten(done) + buf == lines
      && (buf == [] <==> lines == [])
  {
    if lines != [] {
      var init := lines[..|lines| - 1];
      var para := lines[|lines| - 1];
      PackFlatten(init);
      var (done, buf) := Pack(init);
      assert init + [para] == lines;
      if |Joined(buf)| + |para| > ChunkSize {
        FlattenAppend(done, buf);
      }
    }
  }

  /** The packing so far is greedy, counting the open buffer. */
  lemma {:induction false} PackGreedy(lines: seq<string>)
    ensures var (done, buf) := Pack(lines); Greedy(done + [buf])
  {
    if lines != [] {
      var init := lines[..|lines| - 1];
      var para := lines[|lines| - 1];
      PackGreedy(init);
      var (done, buf) := Pack(init);
      var gs := done + [buf];
      if |Joined(buf)| + |para| > ChunkSize {
        var gs' := gs + [[para]];
        assert forall i :: 0 <= i < |gs| ==> gs'[i] == gs[i];
        assert Pack(lines) == (gs, [para]);
      } else {
        PackFlatten(init);
        var buf' := buf + [para];
        var gs' := done + [buf'];
        assert Pack(lines) == (done, buf');
        assert gs[|done|] == buf;
        BufferFits(buf, para);
        assert forall i :: 0 <= i < |done| ==> gs'[i] == gs[i];
        assert gs'[|done|] == buf';
        assert buf != [] ==> buf'[0] == buf[0];
        assert buf == [] ==> done == [];
      }
    }
  }

  lemma BufferFits(buf: seq<string>, para: string)
    requires Fits(buf) && |Joined(buf)| + |para| <= ChunkSize
    ensures Fits(buf + [para])
  {
    var buf' := buf + [para];
    forall k | 1 <= k < |buf'|
      ensures |Joined(buf'[..k])| + |buf'[k]| <= ChunkSize
    {
      if k < |buf| {
        assert buf'[..k] == buf[..k];
      } else {
        assert buf'[..k] == buf;
      }
    }
  }

  /** Every line lands in exactly one chunk, in order; there are no chunks
      exactly when there are no lines; packing is greedy; and the first
      chunk is empty exactly when the first line alone exceeds `ChunkSize`. */
  lemma GroupsSpec(lines: seq<string>)
    ensures Flatten(Groups(lines)) == lines
    ensures Groups(lines) == [] <==> lines == []
    ensures Greedy(Groups(lines))
    ensures Groups(lines) != [] ==> (Groups(lines)[0] == [] <==> |lines[0]| > ChunkSize)
  {
    PackFlatten(lines);
    PackGreedy(lines);
    var (done, buf) := Pack(lines);
    if lines != [] {
      FlattenAppend(done, buf);
      var gs := done + [buf];
      assert Groups(lines) == gs;
      if done == [] {
        assert gs == [buf];
        assert Flatten([buf]) == buf;
        assert buf[0] == lines[0];
        assert |Joined([])| == 0;
      } else {
        FirstGroup(lines);
      }
    }
  }

  /** Once a buffer has been closed, the first one is empty exactly when the
      first line did not fit on its own, and otherwise starts with it. */
  lemma {:induction false} FirstGroup(lines: seq<string>)
    requires Pack(lines).0 != []
    ensures lines != []
    ensures Pack(lines).0[0] == [] <==> |lines[0]| > ChunkSize
    ensures Pack(lines).0[0] != [] ==> Pack(lines).0[0][0] == lines[0]
  {
    var init := lines[..|lines| - 1];
    var para := lines[|lines| - 1];
    var (done, buf) := Pack(init);
    if done != [] {
      FirstGroup(init);
    } else {
      PackFlatten(init);
      assert Pack(lines).0 == [buf];
      if init == [] {
        assert Joined([]) == "";
      } else {
        assert Flatten([]) + buf == init;
        assert buf[0] == lines[0];
      }
    }
  }

  /** A buffer of two or more lines joins to at most `ChunkSize + 1`
      characters: the size test leaves out the joining newline. */
  lemma {:induction false} FitsBound(buf: seq<string>)
    requires |buf| >= 2 && Fits(buf)
    ensures |Joined(buf)| <= ChunkSize + 1
  {
    var n := |buf|;
    JoinedAppend(buf[..n - 1], buf[n - 1]);
    assert buf[..n - 1] + [buf[n - 1]] == buf;
    assert |Joined(buf[..n - 1])| + |buf[n - 1]| <= ChunkSize;
  }

  /** Chunk ids are `prefix1..prefixN`, consecutive and distinct. */
  lemma ChunkIds(text: string, prefix: string)
    ensures forall i :: 0 <= i < |Chunks(text, prefix)| ==>
      Chunks(text, prefix)[i].0 == prefix + NatToString(i + 1)
    ensures forall i, j :: 0 <= i < j < |Chunks(text, prefix)| ==>
      Chunks(text, prefix)[i].0 != Chunks(text, prefix)[j].0
  {
    var cs := Chunks(text, prefix);
    forall i, j | 0 <= i < j < |cs|
      ensures cs[i].0 != cs[j].0
    {
      NatToStringInjective(i + 1, j + 1);
      assert cs[i].0[|prefix|..] == NatToString(i + 1);
      assert cs[j].0[|prefix|..] == NatToString(j + 1);
    }
  }

  /** `dict(groups).get(gid, "")`: the chunk an id names, or nothing. */
  function ChunkText(chunks: seq<(string, string)>, gid: string): string
  {
    PyDict.Get(chunks, gid, "")
  }

  /** best_version's prompt: `f"{text}\n\n{context_text}".strip()`. */
  function Prompt(text: string, chunks: seq<(string, string)>, gid: string): string
  {
    Strip(text + "\n\n" + ChunkText(chunks, gid))
  }

  /** The id of chunk `i` finds that chunk's text; an id the chunker did not
      produce finds the empty context. */
  lemma ChunkTextSpec(text: string, prefix: string, gid: string)
    ensures forall i :: 0 <= i < |Chunks(text, prefix)| && gid == prefix + NatToString(i + 1) ==>
      ChunkText(Chunks(text, prefix), gid) == Chunks(text, prefix)[i].1
    ensures gid !in PyDict.Keys(Chunks(text, prefix)) ==> ChunkText(Chunks(text, prefix), gid) == ""
  {
    var cs := Chunks(text, prefix);
    ChunkIds(text, prefix);
    if gid !in PyDict.Keys(cs) {
      PyDict.GetOfAbsent(cs, gid, "");
    }
    forall i | 0 <= i < |cs| && gid == prefix + NatToString(i + 1)
      ensures ChunkText(cs, gid) == cs[i].1
    {
      PyDict.GetAt(cs, i, "");
    }
  }
}
