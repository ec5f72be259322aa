/** Finding the CI profile blocks of an approved specification: a line scanner over Markdown
    fences, against a declarative reading of fenced blocks (compare section 4.5 of
    CommonMark 0.31.2). */
module FenceScanner {
  import opened Wrappers

  type Line = string
  type Block = seq<Line>

  /** An opening fence: its character, how long it is, and the rest of the line. */
  datatype Fence = Fence(mark: char, length: nat, info: string)

  datatype ScanError = BadHeader | Unterminated

  const PROFILE: string := "syntra-ci"

  /** White space as Python strips it. */
  predicate Space(c: char) {
    var n := c as int;
    || 9 <= n <= 13 || 28 <= n <= 32 || n in {133, 160, 5760, 8232, 8233, 8239, 8287, 12288} || 8192 <= n <= 8202
  }

  function StripRight(s: string): string {
    if s != "" && Space(s[|s| - 1]) then StripRight(s[..|s| - 1]) else s
  }

  function StripLeft(s: string): string {
    if s != "" && Space(s[0]) then StripLeft(s[1..]) else s
  }

  // ------------------------------------------------------------------ single lines

  /** How many leading characters are `mark`. */
  function RunLength(line: Line, mark: char): (n: nat)
    ensures n <= |line| && (forall i :: 0 <= i < n ==> line[i] == mark) && (n < |line| ==> line[n] != mark)
  {
    if line == "" || line[0] != mark then 0 else 1 + RunLength(line[1..], mark)
  }

  /** Three or more of one fence character, at the very start of the line. */
  function Opener(line: Line): Option<Fence> {
    if RunLength(line, '`') >= 3 then Some(Fence('`', RunLength(line, '`'), line[RunLength(line, '`')..]))
    else if RunLength(line, '~') >= 3 then Some(Fence('~', RunLength(line, '~'), line[RunLength(line, '~')..]))
    else None
  }

  /** At least as many of the fence's character, then only blanks and tabs. */
  predicate Closes(line: Line, fence: Fence) {
    var n := RunLength(line, fence.mark);
    n >= fence.length && forall i :: n <= i < |line| ==> line[i] in {' ', '\t'}
  }

  predicate IsProfile(fence: Fence) { StripRight(fence.info) == PROFILE }

  /** A line that names a profile without being exactly its header. */
  predicate Misleads(fence: Fence) {
    PROFILE <= StripLeft(StripRight(fence.info)) && !(IsProfile(fence) && fence.mark == '`' && fence.length == 3)
  }

  // ------------------------------------------------------------------ the declarative reading

  /** The first line that closes the fence. */
  function FirstClose(lines: seq<Line>, fence: Fence): (k: Option<nat>)
    ensures k.Some? ==> k.value < |lines| && Closes(lines[k.value], fence)
    ensures k.Some? ==> forall i :: 0 <= i < k.value ==> !Closes(lines[i], fence)
    ensures k.None? ==> forall i :: 0 <= i < |lines| ==> !Closes(lines[i], fence)
  {
    if lines == [] then None
    else if Closes(lines[0], fence) then Some(0)
    else
      match FirstClose(lines[1..], fence)
      case None => None
      case Some(k) => Some(k + 1)
  }

  function Prepend(blocks: seq<Block>, rest: Result<seq<Block>, ScanError>): Result<seq<Block>, ScanError> {
    match rest
    case Success(more) => Success(blocks + more)
    case Failure(error) => Failure(error)
  }

  /** Read a document block by block: skip to an opening fence, take everything up to the first
      line that closes it, and go on after that. */
  function Reading(lines: seq<Line>): Result<seq<Block>, ScanError>
    decreases |lines|
  {
    if lines == [] then Success([])
    else
      match Opener(lines[0])
      case None => Reading(lines[1..])
      case Some(fence) =>
        if Misleads(fence) then Failure(BadHeader)
        else
          match FirstClose(lines[1..], fence)
          case None => if IsProfile(fence) then Failure(Unterminated) else Success([])
          case Some(k) => Prepend(if IsProfile(fence) then [lines[1..][..k]] else [], Reading(lines[1..][k + 1..]))
  }

  // ------------------------------------------------------------------ the scanner

  /** What reading the rest would give when the scanner stands inside a fence. */
  function Resumed(fence: Fence, body: seq<Line>, rest: seq<Line>): Result<seq<Block>, ScanError> {
    match FirstClose(rest, fence)
    case None => if IsProfile(fence) then Failure(Unterminated) else Success([])
    case Some(k) => Prepend(if IsProfile(fence) then [body + rest[..k]] else [], Reading(rest[k + 1..]))
  }

  /** What the reading of the whole document comes to, seen from a moment of the scan. */
  ghost predicate Foresees(lines: seq<Line>, blocks: seq<Block>, fence: Option<Fence>, body: seq<Line>, rest: seq<Line>) {
    match fence
    case None => body == [] && Reading(lines) == Prepend(blocks, Reading(rest))
    case Some(f) => (IsProfile(f) || body == []) && Reading(lines) == Prepend(blocks, Resumed(f, body, rest))
  }

  /** One pass with a few variables: the open fence, whether it is a profile, and its lines. */
  method ProfileBlocks(lines: seq<Line>) returns (result: Result<seq<Block>, ScanError>)
    ensures result == Reading(lines)
  {
    var blocks: seq<Block> := [];
    var fence: Option<Fence> := None;
    var profile := false;
    var body: seq<Line> := [];
    var i := 0;
    Start(lines);
    while i < |lines|
      invariant 0 <= i <= |lines| && Foresees(lines, blocks, fence, body, lines[i..])
      invariant profile == (fence.Some? && IsProfile(fence.value))
    {
      var line := lines[i];
      assert lines[i..][0] == line && lines[i..][1..] == lines[i + 1..];
      if fence.Some? {
        if Closes(line, fence.value) {
          CloseHere(lines, blocks, fence.value, body, lines[i..]);
          if profile { blocks := blocks + [body]; } else { assert blocks + [] == blocks; }
          fence, profile, body := None, false, [];
        } else {
          StayInside(lines, blocks, fence.value, body, lines[i..]);
          if profile { body := body + [line]; }
        }
      } else {
        var header := Opener(line);
        Outside(lines, blocks, lines[i..]);
        if header.Some? {
          if Misleads(header.value) { return Failure(BadHeader); }
          fence, profile := header, StripRight(header.value.info) == PROFILE;
        }
      }
      i := i + 1;
    }
    Finish(lines, blocks, fence, body, lines[i..]);
    if profile { return Failure(Unterminated); }
    result := Success(blocks);
  }

  lemma Start(lines: seq<Line>)
    ensures Foresees(lines, [], None, [], lines[0..])
  {
    assert lines[0..] == lines;
    PrependNothing(Reading(lines));
  }

  lemma Finish(lines: seq<Line>, blocks: seq<Block>, fence: Option<Fence>, body: seq<Line>, rest: seq<Line>)
    requires Foresees(lines, blocks, fence, body, rest) && rest == []
    ensures Reading(lines) ==
      (if fence.Some? && IsProfile(fence.value) then Failure(Unterminated) else Success(blocks))
  {
    assert blocks + [] == blocks;
  }

  /** Outside every fence a line is skipped, opens one, or ends the scan. */
  lemma Outside(lines: seq<Line>, blocks: seq<Block>, rest: seq<Line>)
    requires Foresees(lines, blocks, None, [], rest) && rest != []
    ensures var header := Opener(rest[0]);
      if header.Some? && Misleads(header.value) then Reading(lines) == Failure(BadHeader)
      else Foresees(lines, blocks, header, [], rest[1..])
  {
    var header := Opener(rest[0]);
    if header.Some? && !Misleads(header.value) { Enter(header.value, rest); }
  }

  /** A closing line ends the block. */
  lemma CloseHere(lines: seq<Line>, blocks: seq<Block>, fence: Fence, body: seq<Line>, rest: seq<Line>)
    requires Foresees(lines, blocks, Some(fence), body, rest) && rest != [] && Closes(rest[0], fence)
    ensures Foresees(lines, blocks + (if IsProfile(fence) then [body] else []), None, [], rest[1..])
  {
    assert body + rest[..0] == body;
    PrependTwice(blocks, if IsProfile(fence) then [body] else [], Reading(rest[1..]));
  }

  lemma ResumedStays(fence: Fence, body: seq<Line>, rest: seq<Line>)
    requires rest != [] && !Closes(rest[0], fence)
    ensures Resumed(fence, body, rest) == Resumed(fence, if IsProfile(fence) then body + [rest[0]] else body, rest[1..])
  {
    var k := FirstClose(rest[1..], fence);
    if k.Some? {
      assert body + rest[..k.value + 1] == body + [rest[0]] + rest[1..][..k.value];
      assert rest[k.value + 1 + 1..] == rest[1..][k.value + 1..];
    }
  }

  /** Any other line inside a fence belongs to the block. */
  lemma StayInside(lines: seq<Line>, blocks: seq<Block>, fence: Fence, body: seq<Line>, rest: seq<Line>)
    requires Foresees(lines, blocks, Some(fence), body, rest) && rest != [] && !Closes(rest[0], fence)
    ensures Foresees(lines, blocks, Some(fence), if IsProfile(fence) then body + [rest[0]] else body, rest[1..])
  {
    ResumedStays(fence, body, rest);
  }

  lemma PrependNothing(rest: Result<seq<Block>, ScanError>)
    ensures Prepend([], rest) == rest
  {
    if rest.Success? { assert [] + rest.value == rest.value; }
  }

  lemma PrependTwice(blocks: seq<Block>, more: seq<Block>, rest: Result<seq<Block>, ScanError>)
    ensures Prepend(blocks, Prepend(more, rest)) == Prepend(blocks + more, rest)
  {
    if rest.Success? { assert blocks + (more + rest.value) == (blocks + more) + rest.value; }
  }

  lemma Enter(fence: Fence, rest: seq<Line>)
    requires rest != [] && Opener(rest[0]) == Some(fence) && !Misleads(fence)
    ensures Reading(rest) == Resumed(fence, [], rest[1..])
  {
    var k := FirstClose(rest[1..], fence);
    if k.Some? { assert [] + rest[1..][..k.value] == rest[1..][..k.value]; }
  }

  // ------------------------------------------------------------------ what the reading means

  /** No fence is open at the end. */
  predicate Closed(lines: seq<Line>)
    decreases |lines|
  {
    lines == []
    || match Opener(lines[0])
       case None => Closed(lines[1..])
       case Some(fence) =>
         FirstClose(lines[1..], fence).Some? && Closed(lines[1..][FirstClose(lines[1..], fence).value + 1..])
  }

  lemma {:induction false} FirstCloseExtends(lines: seq<Line>, more: seq<Line>, fence: Fence)
    requires FirstClose(lines, fence).Some?
    ensures FirstClose(lines + more, fence) == FirstClose(lines, fence)
  {
    if !Closes(lines[0], fence) {
      assert (lines + more)[1..] == lines[1..] + more;
      FirstCloseExtends(lines[1..], more, fence);
    }
  }

  /** The block a fence at the head of the lines contributes, and the lines after it. */
  function Own(fence: Fence, lines: seq<Line>, k: nat): seq<Block>
    requires k < |lines|
  {
    if IsProfile(fence) then [lines[..k]] else []
  }

  lemma ReadFence(lines: seq<Line>, fence: Fence, k: nat)
    requires lines != [] && Opener(lines[0]) == Some(fence) && !Misleads(fence)
    requires FirstClose(lines[1..], fence) == Some(k)
    ensures Reading(lines) == Prepend(Own(fence, lines[1..], k), Reading(lines[1..][k + 1..]))
  {
  }

  ghost predicate Concatenates(prefix: seq<Line>, suffix: seq<Line>) {
    Reading(prefix + suffix)
      == (if Reading(prefix).Success? then Prepend(Reading(prefix).value, Reading(suffix)) else Reading(prefix))
  }

  lemma FenceConcatenates(prefix: seq<Line>, suffix: seq<Line>, fence: Fence, k: nat)
    requires prefix != [] && Opener(prefix[0]) == Some(fence) && !Misleads(fence)
    requires FirstClose(prefix[1..], fence) == Some(k) && Concatenates(prefix[1..][k + 1..], suffix)
    ensures Concatenates(prefix, suffix)
  {
    var tail := prefix[1..][k + 1..];
    assert (prefix + suffix)[1..] == prefix[1..] + suffix;
    FirstCloseExtends(prefix[1..], suffix, fence);
    assert (prefix[1..] + suffix)[k + 1..] == tail + suffix;
    assert (prefix[1..] + suffix)[..k] == prefix[1..][..k];
    ReadFence(prefix, fence, k);
    ReadFence(prefix + suffix, fence, k);
    if Reading(tail).Success? {
      PrependTwice(Own(fence, prefix[1..], k), Reading(tail).value, Reading(suffix));
    }
  }

  /** Scanning a closed prefix and then a suffix concatenates their blocks; an error in either
      is an error of the whole, the first one first. */
  lemma {:induction false} ReadingConcatenates(prefix: seq<Line>, suffix: seq<Line>)
    requires Closed(prefix)
    ensures Concatenates(prefix, suffix)
    decreases |prefix|
  {
    if prefix == [] {
      assert prefix + suffix == suffix;
      PrependNothing(Reading(suffix));
    } else {
      assert (prefix + suffix)[1..] == prefix[1..] + suffix;
      match Opener(prefix[0])
      case None => ReadingConcatenates(prefix[1..], suffix);
      case Some(fence) =>
        if !Misleads(fence) {
          var k := FirstClose(prefix[1..], fence).value;
          ReadingConcatenates(prefix[1..][k + 1..], suffix);
          FenceConcatenates(prefix, suffix, fence, k);
        }
    }
  }

  /** A document inside a fence that none of its lines closes is opaque: wrapped, it selects
      nothing, whatever profile blocks it shows; and a line that does close the fence ends it. */
  lemma WrappingHides(header: Line, document: seq<Line>, closing: Line, after: seq<Line>)
    requires Opener(header).Some? && !Misleads(Opener(header).value) && !IsProfile(Opener(header).value)
    requires forall line :: line in document ==> !Closes(line, Opener(header).value)
    requires Closes(closing, Opener(header).value)
    ensures Reading([header] + document) == Success([])
    ensures Reading([header] + document + [closing] + after) == Reading(after)
  {
    var fence := Opener(header).value;
    assert ([header] + document)[1..] == document;
    var whole := [header] + document + [closing] + after;
    assert whole[1..] == document + ([closing] + after);
    CloseAfter(document, closing, after, fence);
    assert (document + ([closing] + after))[|document| + 1..] == after;
    assert Reading(after).Success? ==> [] + Reading(after).value == Reading(after).value;
  }

  lemma {:induction false} CloseAfter(document: seq<Line>, closing: Line, after: seq<Line>, fence: Fence)
    requires forall line :: line in document ==> !Closes(line, fence)
    requires Closes(closing, fence)
    ensures FirstClose(document + ([closing] + after), fence) == Some(|document|)
  {
    if document == [] {
      assert document + ([closing] + after) == [closing] + after;
    } else {
      assert (document + ([closing] + after))[1..] == document[1..] + ([closing] + after);
      CloseAfter(document[1..], closing, after, fence);
    }
  }

  /** A block that is selected: an exact header, its body, and the line that closes it. */
  ghost predicate Fenced(lines: seq<Line>, i: nat, j: nat, block: Block) {
    && i < j < |lines| && Opener(lines[i]).Some?
    && var fence := Opener(lines[i]).value;
       && fence.mark == '`' && fence.length == 3 && IsProfile(fence)
       && block == lines[i + 1..j] && Closes(lines[j], fence)
       && forall k :: i < k < j ==> !Closes(lines[k], fence)
  }

  ghost predicate HasFenced(lines: seq<Line>, block: Block) {
    exists i: nat, j: nat :: Fenced(lines, i, j, block)
  }

  lemma FencedShifts(lines: seq<Line>, n: nat, block: Block)
    requires n <= |lines| && HasFenced(lines[n..], block)
    ensures HasFenced(lines, block)
  {
    var i: nat, j: nat :| Fenced(lines[n..], i, j, block);
    assert lines[n..][i + 1..j] == lines[n + i + 1..n + j];
    assert forall k :: n + i < k < n + j ==> lines[k] == lines[n..][k - n];
    assert Fenced(lines, n + i, n + j, block);
  }

  /** The first block of a document that starts with a profile fence. */
  lemma OwnBlockIsFenced(lines: seq<Line>, fence: Fence, k: nat)
    requires lines != [] && Opener(lines[0]) == Some(fence) && !Misleads(fence) && IsProfile(fence)
    requires FirstClose(lines[1..], fence) == Some(k)
    ensures HasFenced(lines, lines[1..][..k])
  {
    assert lines[1..][..k] == lines[1..k + 1];
    assert forall n :: 0 < n < k + 1 ==> lines[n] == lines[1..][n - 1];
    ProfileMisleadsUnlessExact(fence);
    assert Fenced(lines, 0, k + 1, lines[1..][..k]);
  }

  /** A fence of exactly three backticks whose only text is the profile's name is the only thing
      that selects, and it selects exactly the lines between it and the first closing line. */
  lemma {:induction false} SelectedBlocksAreFenced(lines: seq<Line>, block: Block)
    requires Reading(lines).Success? && block in Reading(lines).value
    ensures HasFenced(lines, block)
    decreases |lines|
  {
    if Opener(lines[0]).None? {
      SelectedBlocksAreFenced(lines[1..], block);
      FencedShifts(lines, 1, block);
    } else {
      var fence := Opener(lines[0]).value;
      var k := FirstClose(lines[1..], fence).value;
      ReadFence(lines, fence, k);
      if block in Own(fence, lines[1..], k) {
        OwnBlockIsFenced(lines, fence, k);
      } else {
        InTail(lines, fence, k, block);
        SelectedBlocksAreFenced(lines[k + 2..], block);
        FencedShifts(lines, k + 2, block);
      }
    }
  }

  lemma InTail(lines: seq<Line>, fence: Fence, k: nat, block: Block)
    requires lines != [] && k + 2 <= |lines|
    requires Reading(lines) == Prepend(Own(fence, lines[1..], k), Reading(lines[1..][k + 1..])) && Reading(lines).Success?
    requires block in Reading(lines).value && block !in Own(fence, lines[1..], k)
    ensures Reading(lines[k + 2..]).Success? && block in Reading(lines[k + 2..]).value
  {
    assert lines[1..][k + 1..] == lines[k + 2..];
  }

  lemma ProfileMisleadsUnlessExact(fence: Fence)
    requires IsProfile(fence) && !Misleads(fence)
    ensures fence.mark == '`' && fence.length == 3
  {
    assert StripLeft(PROFILE) == PROFILE by { assert !Space(PROFILE[0]); }
  }

  /** The selection: exactly one block, or none at all. */
  method SelectBlock(lines: seq<Line>) returns (block: Option<Block>)
    ensures block.Some? <==> Reading(lines).Success? && |Reading(lines).value| == 1
    ensures block.Some? ==> Reading(lines).value == [block.value]
  {
    var result := ProfileBlocks(lines);
    if result.Failure? || |result.value| != 1 { return None; }
    block := Some(result.value[0]);
  }
}
