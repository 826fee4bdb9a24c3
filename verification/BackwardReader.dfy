// Reading the last record of a line file from its end, block by block.
module BackwardReader {
  import opened Options

  type Bytes = seq<char>

  predicate White(c: char) {
    c == ' ' || c == '\t' || c == '\n' || c == '\r' || c == 11 as char || c == 12 as char
  }

  function RStrip(s: Bytes): (r: Bytes)
    ensures r <= s
  {
    if s == [] || !White(s[|s| - 1]) then s else RStrip(s[..|s| - 1])
  }

  function LStrip(s: Bytes): Bytes {
    if s == [] || !White(s[0]) then s else LStrip(s[1..])
  }

  function LastNewline(s: Bytes): (k: int)
    ensures -1 <= k < |s|
    ensures k >= 0 ==> s[k] == '\n'
    ensures forall i :: k < i < |s| ==> s[i] != '\n'
  {
    if s == [] then -1 else if s[|s| - 1] == '\n' then |s| - 1 else LastNewline(s[..|s| - 1])
  }

  function Ending(t: Bytes): Option<Bytes> {
    if t == [] then None
    else if LastNewline(t) >= 0 then Some(t[LastNewline(t) + 1..])
    else Some(LStrip(t))
  }

  // The last line that holds anything but white space, without what trails it;
  // when no newline stands before it, without what leads it either.
  function LastLine(file: Bytes): Option<Bytes> {
    Ending(RStrip(file))
  }

  lemma {:induction false} RStripSuffix(file: Bytes, pos: nat)
    requires pos <= |file| && RStrip(file[pos..]) != []
    ensures RStrip(file) == file[..pos] + RStrip(file[pos..])
    decreases |file|
  {
    var n := |file| - 1;
    var s := file[pos..];
    if White(file[n]) {
      assert s[..|s| - 1] == file[..n][pos..];
      RStripSuffix(file[..n], pos);
      assert file[..n][..pos] == file[..pos];
    } else {
      assert file == file[..pos] + s;
    }
  }

  lemma {:induction false} LastNewlineSuffix(a: Bytes, b: Bytes)
    requires LastNewline(b) >= 0
    ensures LastNewline(a + b) == |a| + LastNewline(b)
  {
    assert (a + b)[|a| + LastNewline(b)] == '\n';
    assert forall i :: LastNewline(b) < i < |b| ==> (a + b)[|a| + i] == b[i];
    assert forall k :: |a| + LastNewline(b) < k < |a + b| ==> (a + b)[k] == b[k - |a|];
  }

  lemma {:induction false} EndingOfTail(front: Bytes, tail: Bytes)
    requires LastNewline(tail) >= 0
    ensures Ending(front + tail) == Some(tail[LastNewline(tail) + 1..])
  {
    LastNewlineSuffix(front, tail);
    DropFront(front, tail, LastNewline(tail) + 1);
  }

  lemma {:induction false} DropFront(front: Bytes, tail: Bytes, n: nat)
    requires n <= |tail|
    ensures (front + tail)[|front| + n..] == tail[n..]
  {
  }

  // Once a suffix holds the newline before the last record, it holds the record.
  lemma {:induction false} LineInTail(file: Bytes, pos: nat)
    requires pos <= |file| && RStrip(file[pos..]) != [] && LastNewline(RStrip(file[pos..])) >= 0
    ensures var tail := RStrip(file[pos..]); LastLine(file) == Some(tail[LastNewline(tail) + 1..])
  {
    RStripSuffix(file, pos);
    EndingOfTail(file[..pos], RStrip(file[pos..]));
  }

  // Reads blocks backwards until the start of the last record is in the buffer,
  // however long that record is and whatever blank lines follow it.
  method ReadLastRecord(file: Bytes, block: nat) returns (r: Option<Bytes>)
    requires block > 0
    ensures r == LastLine(file)
  {
    var pos := |file|;
    var buf: Bytes := [];
    while pos > 0
      invariant 0 <= pos <= |file|
      invariant buf == file[pos..]
      invariant RStrip(buf) == [] || LastNewline(RStrip(buf)) < 0
    {
      var step := if block < pos then block else pos;
      pos := pos - step;
      buf := file[pos..pos + step] + buf;
      assert buf == file[pos..];
      var tail := RStrip(buf);
      if tail != [] && LastNewline(tail) >= 0 {
        LineInTail(file, pos);
        return Some(tail[LastNewline(tail) + 1..]);
      }
    }
    assert buf == file;
    var tail := RStrip(buf);
    r := if tail == [] then None else Some(LStrip(tail));
  }

  // Bytes [i, j) are the last non-blank line: no newline in it, it ends in something that is not white
  // space, only white space follows it, and a newline or nothing but other blanks precede it.
  ghost predicate LastLineAt(file: Bytes, i: nat, j: nat) {
    && i < j <= |file| && !White(file[j - 1])
    && (forall k :: i <= k < j ==> file[k] != '\n')
    && (forall k :: j <= k < |file| ==> White(file[k]))
    && (i == 0 || file[i - 1] == '\n' || forall k :: 0 <= k < i ==> White(file[k]) && file[k] != '\n')
  }

  // What it returns is the last non-blank line.
  lemma {:induction false} LastLineIsLast(file: Bytes)
    ensures LastLine(file).None? <==> forall i :: 0 <= i < |file| ==> White(file[i])
    ensures LastLine(file).Some? ==>
              exists i: nat, j: nat :: LastLineAt(file, i, j) && file[i..j] == LastLine(file).value
  {
    RStripShape(file);
    var t := RStrip(file);
    if t != [] {
      assert !White(file[|t| - 1]) by { assert file[|t| - 1] == t[|t| - 1]; }
      if LastNewline(t) >= 0 {
        AfterNewline(file, t);
      } else {
        OnlyLine(file, t);
      }
    }
  }

  lemma {:induction false} AfterNewline(file: Bytes, t: Bytes)
    requires t <= file && t != [] && !White(t[|t| - 1]) && LastNewline(t) >= 0
    requires forall k :: |t| <= k < |file| ==> White(file[k])
    ensures var i := LastNewline(t) + 1; LastLineAt(file, i, |t|) && file[i..|t|] == t[i..]
  {
    assert forall k :: 0 <= k < |t| ==> file[k] == t[k];
  }

  lemma {:induction false} OnlyLine(file: Bytes, t: Bytes)
    requires t <= file && t != [] && !White(t[|t| - 1]) && LastNewline(t) < 0
    requires forall k :: |t| <= k < |file| ==> White(file[k])
    ensures |LStrip(t)| <= |t|
    ensures var i := |t| - |LStrip(t)|; LastLineAt(file, i, |t|) && file[i..|t|] == LStrip(t)
  {
    LStripShape(t);
    assert forall k :: 0 <= k < |t| ==> file[k] == t[k];
  }

  lemma {:induction false} RStripShape(s: Bytes)
    ensures var t := RStrip(s);
            && (t != [] ==> !White(t[|t| - 1]))
            && (forall k :: |t| <= k < |s| ==> White(s[k]))
  {
    if s != [] && White(s[|s| - 1]) {
      RStripShape(s[..|s| - 1]);
    }
  }

  lemma {:induction false} LStripShape(s: Bytes)
    ensures var t := LStrip(s);
            && |t| <= |s| && t == s[|s| - |t|..]
            && (forall k :: 0 <= k < |s| - |t| ==> White(s[k]))
            && (s != [] && !White(s[|s| - 1]) ==> t != [])
  {
    if s != [] && White(s[0]) {
      LStripShape(s[1..]);
    }
  }
}
