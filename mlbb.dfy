/**
 * The in-game-name lookup's reading of the validation endpoint's reply:
 * the HTTP status, whether the body parses as JSON, and the scan of its
 * `message` for the first line naming the player.
 */
module Mlbb {
  import opened Wrappers
  import opened Strings

  /** The parsed body: unparseable text, or a JSON value whose `message` is a string or missing. */
  datatype Body = Unparseable | Parsed(message: Option<string>)

  datatype Reply = Reply(status: nat, body: Body)

  /** `response.ok`. */
  predicate Ok(status: nat) {
    200 <= status <= 299
  }

  /** A line names the player when its text before the first ":", trimmed and lower-cased, contains "name". */
  predicate NamesPlayer(line: string)
    ensures NamesPlayer(line) <==> IsNameCaption(BeforeFirst(line, ':'))
  {
    SplitHeadTail(line, ':');
    IsNameCaption(Split(line, ':')[0])
  }

  /** `parts[0] && parts[0].trim().toLowerCase().indexOf("name") !== -1`. */
  predicate IsNameCaption(head: string) {
    head != [] && Contains(ToLower(Trim(head)), "name")
  }

  /** `parts.slice(1).join(":").trim()`: the trimmed text after the first colon, empty without one. */
  function NameOf(line: string): (r: string)
    ensures r == Trim(AfterFirst(line, ':'))
    ensures ':' !in line ==> r == []
  {
    SplitHeadTail(line, ':');
    FirstCut(line, ':');
    Trim(Join(Split(line, ':')[1..], ':'))
  }

  /** Which line is chosen and what it yields, without the split. */
  lemma NameLineParts(line: string)
    ensures NamesPlayer(line) <==> Contains(ToLower(Trim(BeforeFirst(line, ':'))), "name") && BeforeFirst(line, ':') != []
    ensures NameOf(line) == Trim(AfterFirst(line, ':'))
    ensures ':' in line ==> line == BeforeFirst(line, ':') + [':'] + AfterFirst(line, ':')
  {
    SplitHeadTail(line, ':');
    FirstCut(line, ':');
  }

  /** Where the `for … of` loop stops: the first line that names the player, or `|lines|`. */
  function FirstNameLine(lines: seq<string>): (i: nat)
    ensures i <= |lines|
    ensures forall j :: 0 <= j < i ==> !NamesPlayer(lines[j])
    ensures i < |lines| ==> NamesPlayer(lines[i])
  {
    if lines == [] then 0
    else if NamesPlayer(lines[0]) then 0
    else
      var i := FirstNameLine(lines[1..]);
      assert forall j :: 1 <= j < 1 + i ==> lines[j] == lines[1..][j - 1];
      1 + i
  }

  /** The loop's early return: the name on the first line that names the player. */
  function FirstName(lines: seq<string>): (r: Option<string>)
    ensures r.Some? <==> exists i :: 0 <= i < |lines| && NamesPlayer(lines[i])
    ensures r.Some? ==> r.value == NameOf(lines[FirstNameLine(lines)])
  {
    var i := FirstNameLine(lines);
    if i < |lines| then Some(NameOf(lines[i])) else None
  }

  /** The lookup's result for a reply: the in-game name, or the error text. */
  function ReadReply(reply: Reply): (r: Result<string, string>)
    ensures !Ok(reply.status) ==> r == Failure("HTTP Error: " + NatToString(reply.status))
    ensures Ok(reply.status) && reply.body.Unparseable? ==> r == Failure("Invalid JSON response")
    ensures r.Success? ==>
      && Ok(reply.status) && reply.body.Parsed? && reply.body.message.Some?
      && FirstName(Split(reply.body.message.value, '\n')) == Some(r.value)
    ensures Ok(reply.status) && reply.body.Parsed? && r.Failure? ==> r == Failure("Player not found")
    ensures Ok(reply.status) && reply.body.Parsed? && reply.body.message.Some? && FirstName(Split(reply.body.message.value, '\n')).Some? ==>
      r == Success(FirstName(Split(reply.body.message.value, '\n')).value)
  {
    if !Ok(reply.status) then Failure("HTTP Error: " + NatToString(reply.status))
    else match reply.body
      case Unparseable => Failure("Invalid JSON response")
      case Parsed(message) =>
        if message.Some? && message.value != [] then
          match FirstName(Split(message.value, '\n'))
          case Some(name) => Success(name)
          case None => Failure("Player not found")
        else Failure("Player not found")
  }

  /** A `"<caption>:<rest>"` line whose caption mentions "name" names the player as the trimmed rest. */
  lemma CaptionLine(caption: string, rest: string)
    requires ':' !in caption
    requires Contains(ToLower(Trim(caption)), "name")
    ensures NamesPlayer(caption + [':'] + rest) && NameOf(caption + [':'] + rest) == Trim(rest)
  {
    var line := caption + [':'] + rest;
    BeforeFirstAt(line, caption, rest);
    NameLineParts(line);
  }

  /**
   * A reply with status 200 whose message is `"<caption>:<rest>"` on its first
   * line yields the trimmed text after the first colon, whatever follows on
   * later lines.
   */
  lemma FirstLineWins(caption: string, rest: string, later: string)
    requires ':' !in caption && '\n' !in caption && '\n' !in rest
    requires Contains(ToLower(Trim(caption)), "name")
    ensures ReadReply(Reply(200, Parsed(Some(caption + [':'] + rest + ['\n'] + later)))) == Success(Trim(rest))
  {
    var line := caption + [':'] + rest;
    assert '\n' !in line;
    assert line + ['\n'] + later == caption + [':'] + rest + ['\n'] + later;
    SplitAfterPiece(line, '\n', later);
    CaptionLine(caption, rest);
    assert FirstNameLine(Split(line + ['\n'] + later, '\n')) == 0;
  }

  /** Cutting a line at a colon that is its first. */
  lemma {:induction false} BeforeFirstAt(line: string, caption: string, rest: string)
    requires ':' !in caption && line == caption + [':'] + rest
    ensures BeforeFirst(line, ':') == caption && AfterFirst(line, ':') == rest
  {
    if caption != [] {
      assert line[1..] == caption[1..] + [':'] + rest;
      BeforeFirstAt(line[1..], caption[1..], rest);
      assert [caption[0]] + caption[1..] == caption;
    }
  }
}
