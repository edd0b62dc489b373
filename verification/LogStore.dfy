/** The daemon's rotating Xray log: what survives of the bytes written to it, and what `tail` shows. */
module LogStore {

  type Byte = bv8

  const MAX_LOG_BYTES: nat := 10 * 1024 * 1024
  const MAX_LOG_TAIL_BYTES: nat := 256 * 1024
  const ROTATED_LOGS: nat := 3
  const NEWLINE: Byte := 10

  /** The files on disk by rotation number; 0 is the one being written. */
  type Files = map<nat, seq<Byte>>

  function Content(files: Files, index: nat): seq<Byte> {
    if index in files then files[index] else []
  }

  /** Everything on disk, oldest byte first. */
  function Retained(files: Files): seq<Byte> {
    Content(files, 3) + Content(files, 2) + Content(files, 1) + Content(files, 0)
  }

  predicate KnownNames(files: Files) {
    forall index :: index in files ==> index <= ROTATED_LOGS
  }

  function Moved(files: Files, from: nat, to: nat): Files {
    if from in files then map[to := files[from]] else map[]
  }

  /** Every file one number up, the oldest one gone. */
  function Rotated(files: Files): Files {
    Moved(files, 2, 3) + Moved(files, 1, 2) + Moved(files, 0, 1)
  }

  function Renamed(files: Files, from: nat, to: nat): Files {
    if from in files then (files - {from})[to := files[from]] else files
  }

  /** Part of the way: the oldest file gone, and every file above `index` one number up. */
  function Lifted(files: Files, index: nat): Files
    requires index < ROTATED_LOGS
    decreases ROTATED_LOGS - index
  {
    if index == ROTATED_LOGS - 1 then files - {ROTATED_LOGS}
    else Renamed(Lifted(files, index + 1), index + 1, index + 2)
  }

  lemma RenameAt(files: Files, from: nat, to: nat, i: nat)
    requires from != to
    ensures i in Renamed(files, from, to) <==> if i == to then to in files || from in files else i != from && i in files
    ensures i in Renamed(files, from, to) ==>
              Renamed(files, from, to)[i] == if i == to && from in files then files[from] else files[i]
  {
  }

  /** Lifting file by file from the top puts every file one number up. */
  lemma LiftEnds(files: Files)
    requires KnownNames(files)
    ensures Renamed(Lifted(files, 0), 0, 1) == Rotated(files)
  {
    var top := files - {3};
    assert Lifted(files, 2) == top;
    var two := Renamed(top, 2, 3);
    var one := Renamed(two, 1, 2);
    var all := Renamed(one, 0, 1);
    assert Lifted(files, 0) == one;
    hide Lifted, Renamed;
    forall i: nat
      ensures i in all <==> i in Rotated(files)
      ensures i in all ==> all[i] == Rotated(files)[i]
    {
      RenameAt(one, 0, 1, i);
      RenameAt(two, 1, 2, i);
      RenameAt(two, 1, 2, 0);
      RenameAt(top, 2, 3, i);
      RenameAt(top, 2, 3, 0);
      RenameAt(top, 2, 3, 1);
    }
  }

  /** The last `most` bytes, or all of them. */
  function Last(bytes: seq<Byte>, most: nat): seq<Byte> {
    if |bytes| <= most then bytes else bytes[|bytes| - most..]
  }

  function Appended(files: Files, bytes: seq<Byte>): Files {
    if bytes == [] then files
    else
      var kept := if |Content(files, 0)| + |bytes| > MAX_LOG_BYTES then Rotated(files) else files;
      kept[0 := Content(kept, 0) + Last(bytes, MAX_LOG_BYTES)]
  }

  /** What `tail` makes of the live file: a bounded window, from its first whole line when it was cut. */
  ghost predicate IsTail(content: seq<Byte>, maxBytes: nat, r: seq<Byte>) {
    var window := Last(content, if maxBytes < MAX_LOG_TAIL_BYTES then maxBytes else MAX_LOG_TAIL_BYTES);
    if |window| == |content| || NEWLINE !in window then r == window
    else
      exists cut: nat ::
        cut < |window| && window[cut] == NEWLINE && NEWLINE !in window[..cut] && r == window[cut + 1..]
  }

  class LogStore {
    var files: Files

    constructor ()
      ensures files == map[]
    {
      files := map[];
    }

    method Append(bytes: seq<Byte>)
      requires KnownNames(files)
      modifies this
      ensures KnownNames(files)
      ensures files == Appended(old(files), bytes)
    {
      if bytes == [] {
        return;
      }
      var currentLength := if 0 in files then |files[0]| else 0;
      if currentLength + |bytes| > MAX_LOG_BYTES {
        Rotate();
      }
      var start := if |bytes| > MAX_LOG_BYTES then |bytes| - MAX_LOG_BYTES else 0;
      var current := if 0 in files then files[0] else [];
      files := files[0 := current + bytes[start..]];
    }

    method Rotate()
      requires KnownNames(files)
      modifies this
      ensures files == Rotated(old(files))
    {
      hide Rotated, Renamed;
      files := files - {ROTATED_LOGS};
      var index := ROTATED_LOGS - 1;
      while index >= 1
        invariant 0 <= index <= ROTATED_LOGS - 1
        invariant files == Lifted(old(files), index)
      {
        Rename(index, index + 1);
        index := index - 1;
      }
      Rename(0, 1);
      LiftEnds(old(files));
    }

    method Rename(from: nat, to: nat)
      requires from != to
      modifies this
      ensures files == Renamed(old(files), from, to)
    {
      if from in files {
        files := (files - {from})[to := files[from]];
      }
    }

    method Clear()
      requires KnownNames(files)
      modifies this
      ensures files == map[]
    {
      var index := 0;
      while index <= ROTATED_LOGS
        invariant 0 <= index <= ROTATED_LOGS + 1
        invariant forall i :: i in files ==> index <= i <= ROTATED_LOGS
      {
        files := files - {index};
        index := index + 1;
      }
    }

    method Tail(maxBytes: nat) returns (r: seq<Byte>)
      ensures IsTail(Content(files, 0), maxBytes, r)
    {
      if 0 !in files {
        return [];
      }
      var bound := if maxBytes < MAX_LOG_TAIL_BYTES then maxBytes else MAX_LOG_TAIL_BYTES;
      var start := if |files[0]| > bound then |files[0]| - bound else 0;
      r := files[0][start..];
      assert r == Last(files[0], bound);
      if start > 0 {
        var newline := 0;
        while newline < |r| && r[newline] != NEWLINE
          invariant 0 <= newline <= |r|
          invariant NEWLINE !in r[..newline]
        {
          newline := newline + 1;
        }
        if newline < |r| {
          r := r[newline + 1..];
        } else {
          assert r[..newline] == r;
        }
      }
    }
  }

  lemma TailIsBoundedSuffix(content: seq<Byte>, maxBytes: nat, r: seq<Byte>)
    requires IsTail(content, maxBytes, r)
    ensures |r| <= |content| && r == content[|content| - |r|..]
    ensures |r| <= maxBytes && |r| <= MAX_LOG_TAIL_BYTES
    ensures |r| < |content|
            && NEWLINE in Last(content, if maxBytes < MAX_LOG_TAIL_BYTES then maxBytes else MAX_LOG_TAIL_BYTES)
            ==> content[|content| - |r| - 1] == NEWLINE
  {
    var window := Last(content, if maxBytes < MAX_LOG_TAIL_BYTES then maxBytes else MAX_LOG_TAIL_BYTES);
    if |window| == |content| || NEWLINE !in window {
    } else {
      var cut: nat :| cut < |window| && window[cut] == NEWLINE && r == window[cut + 1..];
      assert r == content[|content| - |r|..];
    }
  }

  // ---- Runs ----

  datatype Op = Append(bytes: seq<Byte>) | Clear

  /** `history` is every byte appended since the last clear. */
  datatype State = State(files: Files, history: seq<Byte>)

  function Exec(s: State, op: Op): State {
    match op
    case Append(bytes) => State(Appended(s.files, bytes), s.history + bytes)
    case Clear => State(map[], [])
  }

  function Run(ops: seq<Op>): State {
    if ops == [] then State(map[], []) else Exec(Run(ops[..|ops| - 1]), ops[|ops| - 1])
  }

  predicate Fits(ops: seq<Op>) {
    forall i :: 0 <= i < |ops| && ops[i].Append? ==> |ops[i].bytes| <= MAX_LOG_BYTES
  }

  predicate IsSuffix(part: seq<Byte>, whole: seq<Byte>) {
    |part| <= |whole| && part == whole[|whole| - |part|..]
  }

  /** The files are numbered without gaps, none is empty or oversized, and a file was rotated away only
      when it and its successor could not share one. */
  predicate Stacked(files: Files) {
    && KnownNames(files)
    && (forall i :: i in files ==> 0 < |files[i]| <= MAX_LOG_BYTES)
    && (forall i: nat :: 0 < i && i in files ==> i - 1 in files && |files[i - 1]| + |files[i]| > MAX_LOG_BYTES)
  }

  predicate Kept(s: State) {
    && Stacked(s.files)
    && IsSuffix(Retained(s.files), s.history)
    && (Retained(s.files) == s.history || 3 in s.files)
  }

  lemma SuffixExtends(part: seq<Byte>, whole: seq<Byte>, drop: nat, more: seq<Byte>)
    requires IsSuffix(part, whole) && drop <= |part|
    ensures IsSuffix(part[drop..] + more, whole + more)
  {
  }

  lemma AppendStacks(files: Files, bytes: seq<Byte>)
    requires Stacked(files) && 0 < |bytes| <= MAX_LOG_BYTES
    ensures Stacked(Appended(files, bytes))
  {
    var next := Appended(files, bytes);
    var rotates := |Content(files, 0)| + |bytes| > MAX_LOG_BYTES;
    forall i: nat | i in next
      ensures i <= ROTATED_LOGS && 0 < |next[i]| <= MAX_LOG_BYTES
      ensures 0 < i ==> i - 1 in next && |next[i - 1]| + |next[i]| > MAX_LOG_BYTES
    {
      if i > 0 && rotates {
        RotatedAt(files, i);
        if i > 1 {
          RotatedAt(files, i - 1);
        }
      }
    }
  }

  lemma RotatedAt(files: Files, i: nat)
    requires i > 0
    ensures i in Rotated(files) <==> i <= ROTATED_LOGS && i - 1 in files
    ensures i in Rotated(files) ==> Rotated(files)[i] == files[i - 1]
  {
  }

  lemma AppendRetains(files: Files, bytes: seq<Byte>)
    requires KnownNames(files) && 0 < |bytes| <= MAX_LOG_BYTES
    ensures var gone := if |Content(files, 0)| + |bytes| > MAX_LOG_BYTES then |Content(files, 3)| else 0;
            Retained(Appended(files, bytes)) == Retained(files)[gone..] + bytes
  {
    var next := Appended(files, bytes);
    if |Content(files, 0)| + |bytes| > MAX_LOG_BYTES {
      assert Content(next, 3) == Content(files, 2) && Content(next, 2) == Content(files, 1);
      assert Content(next, 1) == Content(files, 0) && Content(next, 0) == bytes;
    } else {
      assert forall i: nat :: i != 0 ==> Content(next, i) == Content(files, i);
    }
  }

  lemma AppendKeeps(s: State, bytes: seq<Byte>)
    requires Kept(s) && 0 < |bytes| <= MAX_LOG_BYTES
    ensures Kept(Exec(s, Append(bytes)))
  {
    AppendStacks(s.files, bytes);
    AppendRetains(s.files, bytes);
    var gone := if |Content(s.files, 0)| + |bytes| > MAX_LOG_BYTES then |Content(s.files, 3)| else 0;
    SuffixExtends(Retained(s.files), s.history, gone, bytes);
    if 3 in s.files {
      assert 2 in s.files;
      assert 3 in Appended(s.files, bytes);
    }
  }

  lemma ClearKeeps()
    ensures Kept(State(map[], []))
  {
  }

  lemma {:induction false} RunKeeps(ops: seq<Op>)
    requires Fits(ops)
    ensures Kept(Run(ops))
  {
    hide Stacked, Retained, Rotated;
    ClearKeeps();
    if ops == [] {
    } else {
      var n := |ops| - 1;
      RunKeeps(ops[..n]);
      if ops[n].Append? && ops[n].bytes != [] {
        AppendKeeps(Run(ops[..n]), ops[n].bytes);
      } else if ops[n].Append? {
        var s := Run(ops[..n]);
        assert s.history + [] == s.history;
      }
    }
  }

  /** After any appends and clears, the files hold the end of what was appended, none above the cap;
      and if anything was lost, more than two caps' worth of bytes is still there. */
  lemma LogIsASuffix(ops: seq<Op>)
    requires Fits(ops)
    ensures var s := Run(ops);
            && IsSuffix(Retained(s.files), s.history)
            && (forall i :: i in s.files ==> i <= ROTATED_LOGS && |s.files[i]| <= MAX_LOG_BYTES)
            && (Retained(s.files) == s.history || |Retained(s.files)| > 2 * MAX_LOG_BYTES)
  {
    RunKeeps(ops);
    var files := Run(ops).files;
    if 3 in files {
      assert 2 in files && 1 in files;
    }
  }

  predicate Live(s: State) {
    && IsSuffix(Content(s.files, 0), s.history)
    && forall i :: i in s.files ==> i <= ROTATED_LOGS && |s.files[i]| <= MAX_LOG_BYTES
  }

  lemma AppendKeepsLive(s: State, bytes: seq<Byte>)
    requires Live(s) && bytes != []
    ensures Live(Exec(s, Append(bytes)))
  {
    var next := Exec(s, Append(bytes));
    if |Content(s.files, 0)| + |bytes| > MAX_LOG_BYTES {
      assert Content(next.files, 0) == Last(bytes, MAX_LOG_BYTES);
      forall i | i in next.files ensures i <= ROTATED_LOGS && |next.files[i]| <= MAX_LOG_BYTES {
        if i > 0 {
          RotatedAt(s.files, i);
        }
      }
    } else {
      assert Content(next.files, 0) == Content(s.files, 0)[0..] + bytes;
      SuffixExtends(Content(s.files, 0), s.history, 0, bytes);
    }
  }

  /** With appends of any size the live file alone is still the end of what was appended. */
  lemma {:induction false} LiveFileIsASuffix(ops: seq<Op>)
    ensures var s := Run(ops);
            && IsSuffix(Content(s.files, 0), s.history)
            && forall i :: i in s.files ==> i <= ROTATED_LOGS && |s.files[i]| <= MAX_LOG_BYTES
  {
    hide Rotated, Last;
    if ops != [] {
      var n := |ops| - 1;
      LiveFileIsASuffix(ops[..n]);
      var s := Run(ops[..n]);
      if ops[n].Append? && ops[n].bytes != [] {
        AppendKeepsLive(s, ops[n].bytes);
        assert Run(ops) == Exec(s, Append(ops[n].bytes));
        hide Appended;
      } else if ops[n].Append? {
        assert s.history + [] == s.history;
      }
    }
  }

  /** After any run that ends in an append, the live file ends in what was appended, or in as much of its end as one
      file takes. */
  lemma LatestIsLive(ops: seq<Op>, bytes: seq<Byte>)
    requires ops != [] && ops[|ops| - 1] == Append(bytes)
    ensures var live := Content(Run(ops).files, 0);
            var kept := if |bytes| > MAX_LOG_BYTES then bytes[|bytes| - MAX_LOG_BYTES..] else bytes;
            |live| >= |kept| && live[|live| - |kept|..] == kept
  {
    hide Rotated;
    var s := Run(ops[..|ops| - 1]);
    assert Run(ops).files == Appended(s.files, bytes);
  }
}
