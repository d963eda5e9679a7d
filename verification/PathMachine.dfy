/** Path normalisation as the runtime runs it: a stack of parts, then one exactly sized buffer. */
module PathMachine {
  import opened Paths
  import opened Buffers

  method SkipPart(raw: string, from: nat) returns (i: nat)
    requires from <= |raw|
    ensures from <= i <= |raw| && i - from == Run(raw[from..])
  {
    i := from;
    while i < |raw| && !IsSep(raw[i])
      invariant from <= i <= |raw| && i - from + Run(raw[i..]) == Run(raw[from..])
    {
      assert raw[i..][1..] == raw[i + 1..];
      i := i + 1;
    }
  }

  method SkipSeps(raw: string, from: nat) returns (i: nat)
    requires from <= |raw|
    ensures from <= i <= |raw| && Split(raw[i..]) == Split(raw[from..]) && (i < |raw| ==> !IsSep(raw[i]))
  {
    i := from;
    while i < |raw| && IsSep(raw[i])
      invariant from <= i <= |raw| && Split(raw[i..]) == Split(raw[from..])
    {
      assert raw[i..][1..] == raw[i + 1..];
      i := i + 1;
    }
  }

  method ResolveParts(raw: string, start: nat) returns (parts: seq<string>)
    requires start <= |raw|
    ensures parts == Resolve(Split(raw[start..]), [])
  {
    parts := [];
    var i := start;
    ghost var all := Resolve(Split(raw[start..]), []);
    while i < |raw|
      invariant start <= i <= |raw| && Resolve(Split(raw[i..]), parts) == all
      decreases |raw| - i
    {
      i := SkipSeps(raw, i);
      var partStart := i;
      i := SkipPart(raw, i);
      if i == partStart { break; }
      var part := raw[partStart..i];
      ghost var s := raw[partStart..];
      assert s[..i - partStart] == part && s[i - partStart..] == raw[i..];
      assert ([part] + Split(raw[i..]))[1..] == Split(raw[i..]);
      if part == "." { continue; }
      if part == ".." && |parts| > 0 && parts[|parts| - 1] != ".." {
        parts := parts[..|parts| - 1];
        continue;
      }
      parts := parts + [part];
    }
  }

  /** The length computed before the buffer is allocated. */
  method TextLength(parts: seq<string>, before: nat) returns (length: nat)
    ensures length == before + |JoinParts(parts)|
  {
    length := before;
    for i := 0 to |parts|
      invariant length == before + |JoinParts(parts[..i])|
    {
      JoinGrows(parts, i);
      length := length + |parts[i]| + (if i > 0 then 1 else 0);
    }
    assert parts[..|parts|] == parts;
  }

  lemma {:induction false} JoinGrows(parts: seq<string>, i: nat)
    requires i < |parts|
    ensures JoinParts(parts[..i + 1]) == JoinParts(parts[..i]) + (if i > 0 then "/" else "") + parts[i]
  {
    var longer := parts[..i + 1];
    assert longer[..i] == parts[..i];
    if i == 0 { assert parts[..0] == []; assert longer == [parts[0]]; assert "" + "" + parts[0] == parts[0]; }
  }

  lemma {:induction false} JoinNeverShrinks(parts: seq<string>, i: nat)
    requires i <= |parts|
    ensures |JoinParts(parts[..i])| <= |JoinParts(parts)|
    decreases |parts| - i
  {
    if i < |parts| { JoinGrows(parts, i); JoinNeverShrinks(parts, i + 1); } else { assert parts[..i] == parts; }
  }

  /** The parts with slashes between them, from `start` to the end of the buffer. */
  method PutParts(buf: array<char>, start: nat, parts: seq<string>)
    requires start + |JoinParts(parts)| <= buf.Length
    modifies buf
    ensures buf[..start + |JoinParts(parts)|] == old(buf[..start]) + JoinParts(parts)
  {
    var pos := start;
    for i := 0 to |parts|
      invariant pos == start + |JoinParts(parts[..i])| <= buf.Length
      invariant buf[..pos] == old(buf[..start]) + JoinParts(parts[..i])
    {
      JoinGrows(parts, i);
      JoinNeverShrinks(parts, i + 1);
      var piece := (if i > 0 then "/" else "") + parts[i];
      Put(buf, pos, piece);
      pos := pos + |piece|;
    }
    assert parts[..|parts|] == parts;
  }

  /** The buffer is exactly as long as the text: nothing is left over and nothing overflows. */
  method WriteText(head: string, parts: seq<string>) returns (out: array<char>)
    ensures fresh(out) && out[..] == if head + JoinParts(parts) == "" then "." else head + JoinParts(parts)
  {
    var length := TextLength(parts, |head|);
    if length == 0 {
      out := new char[1](_ => '.');
      assert out[..] == ".";
      return;
    }
    out := new char[length](_ => ' ');
    Put(out, 0, head);
    assert out[..0] + head == head;
    PutParts(out, |head|, parts);
    assert out[..length] == out[..];
  }

  method NormalizePath(raw: string) returns (out: array<char>)
    ensures fresh(out) && out[..] == Normalize(raw)
  {
    var absolute := raw != "" && (IsSep(raw[0]) || HasDrive(raw));
    var drive, start := "", 0;
    if HasDrive(raw) { drive, start := raw[..2], 2; }
    assert raw[0..] == raw;
    var parts := ResolveParts(raw, start);
    out := WriteText(drive + (if absolute then "/" else ""), parts);
  }

  method JoinPaths(parts: seq<string>) returns (out: array<char>)
    ensures fresh(out) && out[..] == Join(parts)
  {
    var text := "";
    ghost var all := JoinAll(parts, "");
    for i := 0 to |parts|
      invariant JoinAll(parts[i..], text) == all
    {
      assert parts[i..][1..] == parts[i + 1..];
      if parts[i] == "" { continue; }
      text := if text == "" then parts[i] else text + "/" + parts[i];
    }
    out := NormalizePath(text);
  }

  method TrimEnd(n: string) returns (end: nat)
    ensures end == Trim(n)
  {
    end := |n|;
    assert n[..|n|] == n;
    while end > 1 && IsSep(n[end - 1])
      invariant 0 <= end <= |n| && Trim(n[..end]) == Trim(n)
    {
      assert n[..end][..end - 1] == n[..end - 1];
      end := end - 1;
    }
  }

  method FindLastSep(n: string, end: nat) returns (at: int)
    requires end <= |n|
    ensures at == LastSep(n[..end])
  {
    at := end - 1;
    while at >= 0 && !IsSep(n[at])
      invariant -1 <= at < end && LastSep(n[..at + 1]) == LastSep(n[..end])
    {
      assert n[..at + 1][..at] == n[..at];
      at := at - 1;
    }
  }

  method ParentPath(path: string) returns (r: string)
    ensures r == Parent(path)
  {
    var buf := NormalizePath(path);
    var n := buf[..];
    var end := TrimEnd(n);
    var slash := FindLastSep(n, end);
    r := if slash < 0 then "." else if slash == 0 then "/" else n[..slash];
  }

  method NamePath(path: string) returns (r: string)
    ensures r == Name(path)
  {
    var buf := NormalizePath(path);
    var n := buf[..];
    var end := TrimEnd(n);
    var at := FindLastSep(n, end);
    r := n[at + 1..end];
  }
}
