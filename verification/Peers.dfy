/** The peers file and its list manager (internal/peer/peers_toml.go, peer.go). */
module Peers {
  import opened Strings

  datatype Peer = Peer(name: string, target: string)

  datatype PeerError =
    | UnknownSection(line: nat) | NotKeyValue(line: nat) | OutsideSection(line: nat)
    | BadQuoting(line: nat) | UnknownKey(line: nat)
    | EmptyName | EmptyTarget | DuplicateName(name: string)
    | BadName | BadTarget | NotFound

  // ---- validation -----------------------------------------------------------------------------

  const NAME_FORBIDDEN := " \t\n\r\"\\"
  const TARGET_FORBIDDEN := "\0 \t\n\r\"'\\;|&$`<>"

  predicate ValidTarget(target: string) {
    && target != "" && !ContainsAny(target, TARGET_FORBIDDEN)
    && (var colon := IndexByte(target, ':'); 0 < colon < |target| - 1)
    && target[0] != '-'
  }

  function ValidatePeer(p: Peer): Option<PeerError> {
    if TrimSpace(p.name) == "" then Some(EmptyName)
    else if ContainsAny(p.name, NAME_FORBIDDEN) then Some(BadName)
    else if !ValidTarget(p.target) then Some(BadTarget)
    else None
  }

  predicate NamesUnique(ps: seq<Peer>) {
    forall i, j :: 0 <= i < j < |ps| ==> ps[i].name != ps[j].name
  }

  /** What a Manager holds. */
  predicate ValidList(ps: seq<Peer>) {
    NamesUnique(ps) && forall i :: 0 <= i < |ps| ==> ValidatePeer(ps[i]).None?
  }

  // ---- reading --------------------------------------------------------------------------------

  /** strings.Split(text, "\n"). */
  function Lines(text: string): (r: seq<string>)
    ensures r != []
    decreases |text|
  {
    var i := IndexByte(text, '\n');
    if i < 0 then [text] else [text[..i]] + Lines(text[i + 1..])
  }

  /** Where a `#` starts a comment: not inside the first double-quoted string. */
  function StripComment(line: string): string {
    var hash := IndexByte(line, '#');
    if hash < 0 then line
    else if '"' !in line[..hash] then line[..hash]
    else
      var open := IndexByte(line, '"');
      var length := IndexByte(line[open + 1..], '"');
      if length < 0 then line
      else
        var close := open + 1 + length;
        var after := IndexByte(line[close + 1..], '#');
        if after < 0 then line else line[..close + 1 + after]
  }

  /** The text between the quotes; no escapes. */
  function Unquote(v: string): Option<string> {
    if |v| < 2 || v[0] != '"' || v[|v| - 1] != '"' then None
    else if ContainsAny(v[1..|v| - 1], "\"\\") then None
    else Some(v[1..|v| - 1])
  }

  /** One assignment to the entry at the end of the list. */
  function ParseKV(ps: seq<Peer>, line: string, n: nat): Result<seq<Peer>, PeerError> {
    var eq := IndexByte(line, '=');
    if eq < 0 then Err(NotKeyValue(n))
    else
      var key, val := TrimSpace(line[..eq]), TrimSpace(line[eq + 1..]);
      if ps == [] then Err(OutsideSection(n))
      else
        var last := |ps| - 1;
        match Unquote(val)
        case None => Err(BadQuoting(n))
        case Some(v) =>
          if key == "name" then Ok(ps[last := ps[last].(name := v)])
          else if key == "target" then Ok(ps[last := ps[last].(target := v)])
          else Err(UnknownKey(n))
  }

  function ParseLine(ps: seq<Peer>, raw: string, n: nat): Result<seq<Peer>, PeerError> {
    var line := TrimSpace(StripComment(raw));
    if line == "" then Ok(ps)
    else if line == "[[peers]]" then Ok(ps + [Peer("", "")])
    else if line[0] == '[' then Err(UnknownSection(n))
    else ParseKV(ps, line, n)
  }

  /** All lines, the first of them number one. */
  function ParseLines(lines: seq<string>): Result<seq<Peer>, PeerError> {
    if lines == [] then Ok([])
    else
      var n := |lines| - 1;
      match ParseLines(lines[..n])
      case Err(e) => Err(e)
      case Ok(ps) => ParseLine(ps, lines[n], n + 1)
  }

  /** The first entry, in file order, that is not acceptable. */
  function FinalError(ps: seq<Peer>, i: nat): (e: Option<PeerError>)
    requires i <= |ps|
    ensures i == 0 ==> (e.None? <==> ValidList(ps))
    ensures e.None? <==>
      forall j :: i <= j < |ps| ==> ValidatePeer(ps[j]).None? && forall k :: 0 <= k < j ==> ps[k].name != ps[j].name
    decreases |ps| - i
  {
    if i == |ps| then None
    else if ps[i].name == "" then Some(EmptyName)
    else if ps[i].target == "" then Some(EmptyTarget)
    else if exists k :: 0 <= k < i && ps[k].name == ps[i].name then Some(DuplicateName(ps[i].name))
    else if ValidatePeer(ps[i]).Some? then ValidatePeer(ps[i])
    else FinalError(ps, i + 1)
  }

  function Parsed(text: string): Result<seq<Peer>, PeerError> {
    match ParseLines(Lines(text))
    case Err(e) => Err(e)
    case Ok(ps) => if FinalError(ps, 0).Some? then Err(FinalError(ps, 0).value) else Ok(ps)
  }

  method FinalizePeers(ps: seq<Peer>) returns (e: Option<PeerError>)
    ensures e == FinalError(ps, 0)
  {
    var seen: set<string> := {};
    for i := 0 to |ps|
      invariant seen == set k | 0 <= k < i :: ps[k].name
      invariant FinalError(ps, 0) == FinalError(ps, i)
    {
      if ps[i].name == "" {
        return Some(EmptyName);
      }
      if ps[i].target == "" {
        return Some(EmptyTarget);
      }
      if ps[i].name in seen {
        return Some(DuplicateName(ps[i].name));
      }
      seen := seen + {ps[i].name};
      e := ValidatePeer(ps[i]);
      if e.Some? {
        return;
      }
    }
    return None;
  }

  method ParsePeers(text: string) returns (r: Result<seq<Peer>, PeerError>)
    ensures r == Parsed(text)
  {
    var lines := Lines(text);
    var ps: seq<Peer> := [];
    for i := 0 to |lines|
      invariant ParseLines(lines[..i]) == Ok(ps)
    {
      assert lines[..i + 1][..i] == lines[..i];
      var next := ParseLine(ps, lines[i], i + 1);
      if next.Err? {
        ErrorStays(lines, i + 1);
        return Err(next.error);
      }
      ps := next.value;
    }
    assert lines[..|lines|] == lines;
    var e := FinalizePeers(ps);
    return if e.Some? then Err(e.value) else Ok(ps);
  }

  lemma {:induction false} ErrorStays(lines: seq<string>, i: nat)
    requires i <= |lines| && ParseLines(lines[..i]).Err?
    ensures ParseLines(lines) == ParseLines(lines[..i])
    decreases |lines| - i
  {
    if i == |lines| {
      assert lines[..i] == lines;
    } else {
      assert lines[..i + 1][..i] == lines[..i];
      ErrorStays(lines, i + 1);
    }
  }

  // ---- writing --------------------------------------------------------------------------------

  function HexDigit(n: int): char
    requires 0 <= n < 16
  {
    "0123456789abcdef"[n]
  }

  /** One byte under the %q verb. Bytes from 0x80 on are copied, as it does for printable text. */
  function Escape(c: char): string {
    match c
    case '"' => "\\\""
    case '\\' => "\\\\"
    case '\U{07}' => "\\a"
    case '\U{08}' => "\\b"
    case '\U{0C}' => "\\f"
    case '\n' => "\\n"
    case '\r' => "\\r"
    case '\t' => "\\t"
    case '\U{0B}' => "\\v"
    case _ =>
      if c < ' ' || c == '\U{7F}' then
        var n := c as int;
        ['\\', 'x', HexDigit(n / 16), HexDigit(n % 16)]
      else [c]
  }

  function Escaped(s: string): string {
    if s == "" then "" else Escape(s[0]) + Escaped(s[1..])
  }

  function Quoted(s: string): string {
    "\"" + Escaped(s) + "\""
  }

  const HEADER_1 := "# Thimble peers " + "(K-55). Each " + "[[peers]] entry " + "is a leader"
  const HEADER_2 := "# this leader " + "replicates to. " + "peer add/remove " + "update this file."

  function NameLine(p: Peer): string { "name" + " = " + Quoted(p.name) }

  function TargetLine(p: Peer): string { "target" + " = " + Quoted(p.target) }

  const SECTION_START := "\n" + ("[[peers]]" + "\n")

  function Section(p: Peer): string {
    SECTION_START + (NameLine(p) + "\n") + (TargetLine(p) + "\n")
  }

  /** `header` and then one section per peer. */
  function EncodedAfter(header: string, ps: seq<Peer>): string {
    if ps == [] then header
    else EncodedAfter(header, ps[..|ps| - 1]) + Section(ps[|ps| - 1])
  }

  function Encoded(ps: seq<Peer>): string {
    EncodedAfter(HEADER_1 + "\n" + HEADER_2 + "\n", ps)
  }

  method EncodePeers(ps: seq<Peer>) returns (text: string)
    ensures text == Encoded(ps)
  {
    var header := HEADER_1 + "\n" + HEADER_2 + "\n";
    text := EncodeSections(header, ps);
  }

  method EncodeSections(header: string, ps: seq<Peer>) returns (text: string)
    ensures text == EncodedAfter(header, ps)
  {
    text := header;
    for i := 0 to |ps|
      invariant text == EncodedAfter(header, ps[..i])
    {
      assert ps[..i + 1][..i] == ps[..i];
      ConcatFour(text, SECTION_START, NameLine(ps[i]) + "\n", TargetLine(ps[i]) + "\n");
      text := text + SECTION_START;
      text := text + (NameLine(ps[i]) + "\n");
      text := text + (TargetLine(ps[i]) + "\n");
    }
    assert ps[..|ps|] == ps;
  }

  lemma ConcatFour(a: string, b: string, c: string, d: string)
    ensures a + (b + c + d) == a + b + c + d
  {
  }

  // ---- the list -------------------------------------------------------------------------------

  function FindPeer(ps: seq<Peer>, name: string): (r: Option<Peer>)
    ensures r.Some? ==> r.value in ps && r.value.name == name
    ensures r.None? <==> forall i :: 0 <= i < |ps| ==> ps[i].name != name
  {
    if ps == [] then None else if ps[0].name == name then Some(ps[0]) else FindPeer(ps[1..], name)
  }

  function AddPeer(ps: seq<Peer>, p: Peer): Result<seq<Peer>, PeerError> {
    if ValidatePeer(p).Some? then Err(ValidatePeer(p).value)
    else if FindPeer(ps, p.name).Some? then Err(DuplicateName(p.name))
    else Ok(ps + [p])
  }

  /** Without the first entry of that name. */
  function RemovePeer(ps: seq<Peer>, name: string): Result<seq<Peer>, PeerError> {
    if ps == [] then Err(NotFound)
    else if ps[0].name == name then Ok(ps[1..])
    else
      match RemovePeer(ps[1..], name)
      case Err(e) => Err(e)
      case Ok(rest) => Ok([ps[0]] + rest)
  }

  lemma {:induction false} RemoveAt(ps: seq<Peer>, name: string, i: nat)
    requires i <= |ps| && forall j :: 0 <= j < i ==> ps[j].name != name
    ensures i == |ps| ==> RemovePeer(ps, name) == Err(NotFound)
    ensures i < |ps| && ps[i].name == name ==> RemovePeer(ps, name) == Ok(ps[..i] + ps[i + 1..])
  {
    if i > 0 {
      var rest := ps[1..];
      RemoveAt(rest, name, i - 1);
      if i < |ps| && ps[i].name == name {
        var kept := rest[..i - 1] + rest[i - 1 + 1..];
        assert RemovePeer(rest, name) == Ok(kept);
        assert RemovePeer(ps, name) == Ok([ps[0]] + kept);
        CutShift(ps, i);
      }
    } else {
      assert ps != [] ==> ps[..0] + ps[1..] == ps[1..];
    }
  }

  lemma CutShift(ps: seq<Peer>, i: nat)
    requires 0 < i < |ps|
    ensures [ps[0]] + (ps[1..][..i - 1] + ps[1..][i - 1 + 1..]) == ps[..i] + ps[i + 1..]
  {
  }

  class Manager {
    var peers: seq<Peer>
    var file: Option<string>  // the peers file on disk

    /** An absent file is an empty list. */
    constructor Empty()
      ensures peers == [] && file == None
    {
      peers := [];
      file := None;
    }

    /** Load. On an error the list is not to be used. */
    method Load(disk: Option<string>) returns (e: Option<PeerError>)
      modifies this
      ensures file == disk
      ensures match disk
        case None => e == None && peers == []
        case Some(text) =>
          match Parsed(text)
          case Ok(ps) => e == None && peers == ps
          case Err(x) => e == Some(x) && peers == old(peers)
    {
      file := disk;
      if disk.None? {
        peers := [];
        return None;
      }
      var r := ParsePeers(disk.value);
      if r.Err? {
        return Some(r.error);
      }
      peers := r.value;
      return None;
    }

    method List() returns (out: seq<Peer>)
      ensures out == peers
    {
      out := peers;
    }

    method Find(name: string) returns (r: Option<Peer>)
      ensures r == FindPeer(peers, name)
    {
      for i := 0 to |peers|
        invariant FindPeer(peers, name) == FindPeer(peers[i..], name)
      {
        assert peers[i..][1..] == peers[i + 1..];
        if peers[i].name == name {
          return Some(peers[i]);
        }
      }
      return None;
    }

    method Add(p: Peer) returns (e: Option<PeerError>)
      modifies this`peers
      ensures match AddPeer(old(peers), p)
        case Ok(ps) => e == None && peers == ps
        case Err(x) => e == Some(x) && peers == old(peers)
    {
      e := ValidatePeer(p);
      if e.Some? {
        return;
      }
      var found := Find(p.name);
      if found.Some? {
        return Some(DuplicateName(p.name));
      }
      peers := peers + [p];
      return None;
    }

    method Remove(name: string) returns (e: Option<PeerError>)
      modifies this`peers
      ensures match RemovePeer(old(peers), name)
        case Ok(ps) => e == None && peers == ps
        case Err(x) => e == Some(x) && peers == old(peers)
    {
      for i := 0 to |peers|
        invariant peers == old(peers)
        invariant forall j :: 0 <= j < i ==> peers[j].name != name
      {
        if peers[i].name == name {
          RemoveAt(peers, name, i);
          peers := peers[..i] + peers[i + 1..];
          return None;
        }
      }
      RemoveAt(peers, name, |peers|);
      return Some(NotFound);
    }

    method Save(fail: bool)
      modifies this`file
      ensures file == if fail then old(file) else Some(Encoded(peers))
    {
      var text := EncodePeers(peers);
      if !fail {
        file := Some(text);
      }
    }
  }
}

/** The boundary of the peers file round trip, and the list's own laws. */
module PeersLaws {
  import opened Strings
  import opened Peers

  predicate Ascii(s: string) {
    forall i :: 0 <= i < |s| ==> s[i] < '\U{80}'
  }

  predicate Printable(s: string) {
    forall i :: 0 <= i < |s| ==> ' ' <= s[i] && s[i] != '\U{7F}'
  }

  predicate PeerPrintable(p: Peer) {
    Printable(p.name) && Printable(p.target)
  }

  // ---- quoting --------------------------------------------------------------------------------

  /** Free of the two bytes that valid names and targets never hold. */
  predicate Plain(s: string) {
    '"' !in s && '\\' !in s
  }

  lemma EscapeShape(c: char)
    requires c != '"' && c != '\\'
    ensures '"' !in Escape(c) && '\n' !in Escape(c)
    ensures if ' ' <= c && c != '\U{7F}' then Escape(c) == [c] else '\\' in Escape(c)
  {
    if c < ' ' || c == '\U{7F}' {
      var n := c as int;
      HexPlain(n / 16);
      HexPlain(n % 16);
    }
  }

  lemma HexPlain(n: int)
    requires 0 <= n < 16
    ensures HexDigit(n) != '"' && HexDigit(n) != '\n' && HexDigit(n) != '\\'
  {
  }

  /** Quoting a plain text leaves it alone exactly when every byte is printable. */
  lemma {:induction false} EscapedShape(s: string)
    requires Plain(s)
    ensures '"' !in Escaped(s) && '\n' !in Escaped(s)
    ensures Printable(s) ==> Escaped(s) == s
    ensures !Printable(s) ==> '\\' in Escaped(s)
  {
    if s != "" {
      assert s == [s[0]] + s[1..];
      EscapeShape(s[0]);
      EscapedShape(s[1..]);
      assert Printable(s) <==> Printable([s[0]]) && Printable(s[1..]);
    }
  }

  lemma UnquoteQuoted(s: string)
    requires Plain(s)
    ensures Unquote(Quoted(s)) == if Printable(s) then Some(s) else None
  {
    EscapedShape(s);
    var q := Quoted(s);
    assert q[1..|q| - 1] == Escaped(s);
    if !Printable(s) {
      var i :| 0 <= i < |Escaped(s)| && Escaped(s)[i] == '\\';
      assert Escaped(s)[i] in "\"\\";
    }
  }

  // ---- one line -------------------------------------------------------------------------------

  lemma TrimEnds(s: string)
    requires s != "" && IsGraphic(s[0]) && IsGraphic(s[|s| - 1])
    ensures TrimSpace(s) == s && TrimSpace(" " + s) == s && TrimSpace(s + " ") == s
  {
    TrimSpaceId(s);
    assert (" " + s)[1..] == s;
    assert TrimLeft(" " + s) == TrimLeft(s);
    assert (s + " ")[..|s|] == s;
    assert TrimRight(s + " ") == TrimRight(s);
    assert TrimLeft(s + " ") == s + " ";
  }

  /** No comment starts inside the first quoted string. */
  lemma QuotedHasNoComment(a: string, e: string)
    requires '"' !in a && '#' !in a && '"' !in e
    ensures StripComment(a + "\"" + e + "\"") == a + "\"" + e + "\""
  {
    var line := a + "\"" + e + "\"";
    assert line[..|a|] == a && line[|a|] == '"';
    IndexByteUnique(line, '"', |a|);
    assert line[|a| + 1..] == e + "\"";
    assert (e + "\"")[..|e|] == e;
    IndexByteUnique(e + "\"", '"', |e|);
    assert line[|a| + 1 + |e| + 1..] == "";
    var hash := IndexByte(line, '#');
    if hash >= 0 {
      assert forall i :: 0 <= i <= |a| ==> line[i] != '#';
      assert line[..hash][|a|] == '"';
    }
  }

  lemma KeyAndValue(key: string, v: string)
    requires key != "" && IsGraphic(key[0]) && IsGraphic(key[|key| - 1]) && '=' !in key
    requires v != "" && IsGraphic(v[0]) && IsGraphic(v[|v| - 1])
    ensures var line := key + " = " + v;
      && IndexByte(line, '=') == |key| + 1
      && TrimSpace(line[..|key| + 1]) == key && TrimSpace(line[|key| + 2..]) == v
      && TrimSpace(line) == line && line != "" && line[0] == key[0]
  {
    var line := key + " = " + v;
    assert line[..|key| + 1] == key + " ";
    assert line[|key| + 1] == '=';
    IndexByteUnique(line, '=', |key| + 1);
    assert line[|key| + 2..] == " " + v;
    TrimEnds(key);
    TrimEnds(v);
    TrimSpaceId(line);
  }

  lemma AssignmentIs(ps: seq<Peer>, key: string, v: string, n: nat)
    requires key != "" && IsGraphic(key[0]) && IsGraphic(key[|key| - 1]) && '=' !in key && key[0] != '['
    requires v != "" && IsGraphic(v[0]) && IsGraphic(v[|v| - 1])
    requires StripComment(key + " = " + v) == key + " = " + v && ps != []
    ensures ParseLine(ps, key + " = " + v, n)
         == match Unquote(v)
            case None => Err(BadQuoting(n))
            case Some(x) =>
              if key == "name" then Ok(ps[|ps| - 1 := ps[|ps| - 1].(name := x)])
              else if key == "target" then Ok(ps[|ps| - 1 := ps[|ps| - 1].(target := x)])
              else Err(UnknownKey(n))
  {
    KeyAndValue(key, v);
    var line := key + " = " + v;
    assert line[0] != "[[peers]]"[0];
    assert ParseLine(ps, line, n) == ParseKV(ps, line, n);
  }

  lemma QuotedEnds(s: string)
    ensures Quoted(s) != "" && IsGraphic(Quoted(s)[0]) && IsGraphic(Quoted(s)[|Quoted(s)| - 1])
  {
  }

  /** '#' and '=' inside the quotes included. */
  lemma AssignmentKept(key: string, s: string)
    requires Plain(s) && '"' !in key && '#' !in key
    ensures StripComment(key + " = " + Quoted(s)) == key + " = " + Quoted(s)
    ensures '\n' !in key ==> '\n' !in key + " = " + Quoted(s)
  {
    EscapedShape(s);
    var a := key + " = ";
    assert '"' !in " = " && '#' !in " = " && '\n' !in " = ";
    QuotedHasNoComment(a, Escaped(s));
    QuoteParts(a, s);
  }

  lemma QuoteParts(a: string, s: string)
    ensures a + Quoted(s) == a + "\"" + Escaped(s) + "\""
    ensures '\n' !in a && '\n' !in Escaped(s) ==> '\n' !in a + Quoted(s)
  {
  }

  lemma ParseName(ps: seq<Peer>, q: Peer, p: Peer, n: nat)
    requires Plain(p.name)
    ensures ParseLine(ps + [q], NameLine(p), n)
         == if Printable(p.name) then Ok(ps + [q.(name := p.name)]) else Err(BadQuoting(n))
  {
    var key := "name";
    AssignmentKept(key, p.name);
    UnquoteQuoted(p.name);
    QuotedEnds(p.name);
    AssignmentIs(ps + [q], key, Quoted(p.name), n);
    LastUpdated(ps, q, q.(name := p.name));
  }

  lemma ParseTarget(ps: seq<Peer>, q: Peer, p: Peer, n: nat)
    requires Plain(p.target)
    ensures ParseLine(ps + [q], TargetLine(p), n)
         == if Printable(p.target) then Ok(ps + [q.(target := p.target)]) else Err(BadQuoting(n))
  {
    var key := "target";
    AssignmentKept(key, p.target);
    UnquoteQuoted(p.target);
    QuotedEnds(p.target);
    AssignmentIs(ps + [q], key, Quoted(p.target), n);
    LastUpdated(ps, q, q.(target := p.target));
  }

  lemma LastUpdated(ps: seq<Peer>, p: Peer, q: Peer)
    ensures (ps + [p])[|ps| := q] == ps + [q]
  {
  }

  lemma AssignmentsAreLines(p: Peer)
    requires Plain(p.name) && Plain(p.target)
    ensures '\n' !in NameLine(p) && '\n' !in TargetLine(p)
  {
    AssignmentKept("name", p.name);
    AssignmentKept("target", p.target);
  }

  const SECTION_LINE := "[[peers]]"

  lemma ParseSectionLines(ps: seq<Peer>, n: nat)
    ensures ParseLine(ps, "", n) == Ok(ps)
    ensures ParseLine(ps, SECTION_LINE, n) == Ok(ps + [Peer("", "")])
  {
    var s := SECTION_LINE;
    assert '#' !in s;
    TrimSpaceId(s);
    TrimSpaceId("");
  }

  lemma ParseComment(ps: seq<Peer>, line: string, n: nat)
    requires line != "" && line[0] == '#'
    ensures ParseLine(ps, line, n) == Ok(ps)
  {
    IndexByteUnique(line, '#', 0);
    assert line[..0] == "";
    TrimSpaceId("");
  }

  // ---- the lines of a file --------------------------------------------------------------------

  /** `head` and then four lines per peer. */
  function LinesAfter(head: seq<string>, ps: seq<Peer>): (r: seq<string>)
    ensures |r| == |head| + 4 * |ps|
  {
    if ps == [] then head
    else
      var n := |ps| - 1;
      LinesAfter(head, ps[..n]) + ["", SECTION_LINE, NameLine(ps[n]), TargetLine(ps[n])]
  }

  /** The lines, each ended by a newline. */
  function Unlines(lines: seq<string>): string {
    if lines == [] then "" else (lines[0] + "\n") + Unlines(lines[1..])
  }

  predicate NoNewlines(lines: seq<string>) {
    forall i :: 0 <= i < |lines| ==> '\n' !in lines[i]
  }

  lemma {:induction false} LinesFirst(line: string, rest: string)
    requires '\n' !in line
    ensures Lines((line + "\n") + rest) == [line] + Lines(rest)
  {
    var all := (line + "\n") + rest;
    assert all[..|line|] == line && all[|line|] == '\n';
    IndexByteUnique(all, '\n', |line|);
    assert all[|line| + 1..] == rest;
  }

  lemma {:induction false} LinesUnlines(lines: seq<string>)
    requires NoNewlines(lines)
    ensures Lines(Unlines(lines)) == lines + [""]
  {
    if lines != [] {
      LinesUnlines(lines[1..]);
      LinesFirst(lines[0], Unlines(lines[1..]));
      assert lines + [""] == [lines[0]] + (lines[1..] + [""]);
    }
  }

  lemma {:induction false} UnlinesConcat(a: seq<string>, b: seq<string>)
    ensures Unlines(a + b) == Unlines(a) + Unlines(b)
  {
    if a == [] {
      assert a + b == b;
    } else {
      assert (a + b)[1..] == a[1..] + b;
      UnlinesConcat(a[1..], b);
    }
  }

  lemma UnlinesOne(a: string)
    ensures Unlines([a]) == a + "\n"
  {
    assert [a][1..] == [];
  }

  lemma UnlinesTwo(a: string, b: string)
    ensures Unlines([a, b]) == (a + "\n") + (b + "\n")
  {
    UnlinesConcat([a], [b]);
    UnlinesOne(a);
    UnlinesOne(b);
    assert [a] + [b] == [a, b];
  }

  lemma UnlinesFour(a: string, b: string, c: string, d: string)
    ensures Unlines([a, b, c, d]) == (a + "\n") + (b + "\n") + (c + "\n") + (d + "\n")
  {
    UnlinesTwo(a, b);
    UnlinesTwo(c, d);
    UnlinesConcat([a, b], [c, d]);
    assert [a, b] + [c, d] == [a, b, c, d];
  }

  lemma SectionIsLines(p: Peer)
    ensures Section(p) == Unlines(["", SECTION_LINE, NameLine(p), TargetLine(p)])
  {
    UnlinesFour("", SECTION_LINE, NameLine(p), TargetLine(p));
  }

  lemma {:induction false} EncodedIsLines(head: seq<string>, ps: seq<Peer>)
    ensures EncodedAfter(Unlines(head), ps) == Unlines(LinesAfter(head, ps))
  {
    if ps != [] {
      var n := |ps| - 1;
      EncodedIsLines(head, ps[..n]);
      SectionIsLines(ps[n]);
      UnlinesConcat(LinesAfter(head, ps[..n]), ["", SECTION_LINE, NameLine(ps[n]), TargetLine(ps[n])]);
    }
  }

  lemma {:induction false} LinesAfterPlain(head: seq<string>, ps: seq<Peer>)
    requires NoNewlines(head)
    requires forall i :: 0 <= i < |ps| ==> Plain(ps[i].name) && Plain(ps[i].target)
    ensures NoNewlines(LinesAfter(head, ps))
  {
    if ps != [] {
      var n := |ps| - 1;
      LinesAfterPlain(head, ps[..n]);
      AssignmentsAreLines(ps[n]);
    }
  }

  lemma NotInConcat(a: string, b: string, c: string, d: string)
    requires '\n' !in a && '\n' !in b && '\n' !in c && '\n' !in d && a != ""
    ensures '\n' !in a + b + c + d && a + b + c + d != "" && (a + b + c + d)[0] == a[0]
  {
  }

  lemma HeaderShape()
    ensures '\n' !in HEADER_1 && HEADER_1 != "" && HEADER_1[0] == '#'
    ensures '\n' !in HEADER_2 && HEADER_2 != "" && HEADER_2[0] == '#'
  {
    NotInConcat("# Thimble peers ", "(K-55). Each ", "[[peers]] entry ", "is a leader");
    NotInConcat("# this leader ", "replicates to. ", "peer add/remove ", "update this file.");
  }

  // ---- the round trip -------------------------------------------------------------------------

  lemma ParseSnoc(lines: seq<string>, line: string)
    ensures ParseLines(lines + [line])
         == match ParseLines(lines)
            case Err(e) => Err(e)
            case Ok(ps) => ParseLine(ps, line, |lines| + 1)
  {
    assert (lines + [line])[..|lines|] == lines;
  }

  predicate AllPrintable(ps: seq<Peer>) {
    forall i :: 0 <= i < |ps| ==> PeerPrintable(ps[i])
  }

  function Then(r: Result<seq<Peer>, PeerError>, line: string, n: nat): Result<seq<Peer>, PeerError> {
    match r
    case Err(e) => Err(e)
    case Ok(ps) => ParseLine(ps, line, n)
  }

  lemma {:induction false} ParseChain(lines: seq<string>, a: string, b: string, c: string, d: string)
    ensures var n := |lines|;
      ParseLines(lines + [a, b, c, d])
        == Then(Then(Then(Then(ParseLines(lines), a, n + 1), b, n + 2), c, n + 3), d, n + 4)
  {
    ParseSnoc(lines, a);
    ParseSnoc(lines + [a], b);
    assert lines + [a] + [b] == lines + [a, b];
    ParseSnoc(lines + [a, b], c);
    assert lines + [a, b] + [c] == lines + [a, b, c];
    ParseSnoc(lines + [a, b, c], d);
    assert lines + [a, b, c] + [d] == lines + [a, b, c, d];
  }

  lemma ParseFour(lines: seq<string>, ps: seq<Peer>, p: Peer)
    requires ParseLines(lines) == Ok(ps) && Plain(p.name) && Plain(p.target)
    ensures var r := ParseLines(lines + ["", SECTION_LINE, NameLine(p), TargetLine(p)]);
      if PeerPrintable(p) then r == Ok(ps + [p]) else r.Err?
  {
    var n := |lines|;
    ParseChain(lines, "", SECTION_LINE, NameLine(p), TargetLine(p));
    ParseSectionLines(ps, n + 1);
    ParseSectionLines(ps, n + 2);
    ParseName(ps, Peer("", ""), p, n + 3);
    if Printable(p.name) {
      ParseTarget(ps, Peer(p.name, ""), p, n + 4);
    }
  }

  lemma ErrorExtends(lines: seq<string>, more: seq<string>)
    requires ParseLines(lines).Err?
    ensures ParseLines(lines + more).Err?
  {
    assert (lines + more)[..|lines|] == lines;
    ErrorStays(lines + more, |lines|);
  }

  /** Reading `lines` gives back exactly the list they were written for, or fails. */
  ghost predicate ReadsBack(lines: seq<string>, ps: seq<Peer>) {
    if AllPrintable(ps) then ParseLines(lines) == Ok(ps) else ParseLines(lines).Err?
  }

  lemma SectionReadsBack(lines: seq<string>, before: seq<Peer>, p: Peer)
    requires ReadsBack(lines, before) && Plain(p.name) && Plain(p.target)
    ensures ReadsBack(lines + ["", SECTION_LINE, NameLine(p), TargetLine(p)], before + [p])
  {
    var four := ["", SECTION_LINE, NameLine(p), TargetLine(p)];
    assert (before + [p])[..|before|] == before;
    AllPrintableSnoc(before + [p]);
    if AllPrintable(before) {
      ParseFour(lines, before, p);
    } else {
      ErrorExtends(lines, four);
    }
  }

  lemma {:induction false} ParseLinesAfter(head: seq<string>, ps: seq<Peer>)
    requires forall i :: 0 <= i < |ps| ==> Plain(ps[i].name) && Plain(ps[i].target)
    requires ParseLines(head) == Ok([])
    ensures ReadsBack(LinesAfter(head, ps), ps)
  {
    if ps != [] {
      var n := |ps| - 1;
      ParseLinesAfter(head, ps[..n]);
      SectionReadsBack(LinesAfter(head, ps[..n]), ps[..n], ps[n]);
      assert ps == ps[..n] + [ps[n]];
    }
  }

  lemma AllPrintableSnoc(ps: seq<Peer>)
    requires ps != []
    ensures AllPrintable(ps) <==> AllPrintable(ps[..|ps| - 1]) && PeerPrintable(ps[|ps| - 1])
  {
  }

  lemma ParseHeader(a: string, b: string)
    requires a != "" && a[0] == '#' && b != "" && b[0] == '#'
    ensures ParseLines([a, b]) == Ok([])
  {
    ParseSnoc([], a);
    ParseComment([], a, 1);
    ParseSnoc([a], b);
    ParseComment([], b, 2);
    assert [] + [a] == [a] && [a] + [b] == [a, b];
  }

  lemma ValidIsPlain(p: Peer)
    requires ValidatePeer(p).None?
    ensures Plain(p.name) && Plain(p.target)
  {
    assert forall i :: 0 <= i < |p.name| ==> p.name[i] !in NAME_FORBIDDEN;
    assert forall i :: 0 <= i < |p.target| ==> p.target[i] !in TARGET_FORBIDDEN;
  }

  /** Saving a valid list and loading it again gives the same list exactly when every byte of
      every name and target is printable. Otherwise an accepted control byte is written as an
      escape that the reader refuses, and the saved file does not load at all. */
  lemma {:induction false} RoundTrip(ps: seq<Peer>)
    requires ValidList(ps) && forall i :: 0 <= i < |ps| ==> Ascii(ps[i].name) && Ascii(ps[i].target)
    ensures Parsed(Encoded(ps)) == Ok(ps) <==> AllPrintable(ps)
    ensures !AllPrintable(ps) ==> Parsed(Encoded(ps)).Err?
  {
    forall i | 0 <= i < |ps|
      ensures Plain(ps[i].name) && Plain(ps[i].target)
    {
      ValidIsPlain(ps[i]);
    }
    HeaderShape();
    HeaderRoundTrip(HEADER_1, HEADER_2, ps);
  }

  lemma HeaderRoundTrip(a: string, b: string, ps: seq<Peer>)
    requires ValidList(ps) && forall i :: 0 <= i < |ps| ==> Plain(ps[i].name) && Plain(ps[i].target)
    requires '\n' !in a && '\n' !in b && a != "" && a[0] == '#' && b != "" && b[0] == '#'
    ensures var text := EncodedAfter(a + "\n" + b + "\n", ps);
      (Parsed(text) == Ok(ps) <==> AllPrintable(ps)) && (!AllPrintable(ps) ==> Parsed(text).Err?)
  {
    var head := [a, b];
    ParseHeader(a, b);
    UnlinesTwo(a, b);
    assert a + "\n" + b + "\n" == (a + "\n") + (b + "\n");
    RoundTripAfter(head, ps);
  }

  lemma RoundTripAfter(head: seq<string>, ps: seq<Peer>)
    requires ValidList(ps) && forall i :: 0 <= i < |ps| ==> Plain(ps[i].name) && Plain(ps[i].target)
    requires NoNewlines(head) && ParseLines(head) == Ok([])
    ensures var text := EncodedAfter(Unlines(head), ps);
      (Parsed(text) == Ok(ps) <==> AllPrintable(ps)) && (!AllPrintable(ps) ==> Parsed(text).Err?)
  {
    EncodedIsLines(head, ps);
    LinesAfterPlain(head, ps);
    LinesUnlines(LinesAfter(head, ps));
    ParseLinesAfter(head, ps);
    ParsedLines(EncodedAfter(Unlines(head), ps), LinesAfter(head, ps), ps);
  }

  lemma ParsedLines(text: string, lines: seq<string>, ps: seq<Peer>)
    requires Lines(text) == lines + [""] && ReadsBack(lines, ps) && ValidList(ps)
    ensures if AllPrintable(ps) then Parsed(text) == Ok(ps) else Parsed(text).Err?
  {
    ParseSnoc(lines, "");
    ParseSectionLines(ps, |lines| + 1);
  }

  /** Every acceptable peer has such a neighbour: the same name with a control byte at its end
      is accepted too, and cannot be loaded back. */
  lemma {:induction false} ControlByteAccepted(p: Peer)
    requires ValidatePeer(p).None? && Ascii(p.name) && Ascii(p.target) && IsGraphic(p.name[0])
    ensures var q := Peer(p.name + ['\U{01}'], p.target);
      AddPeer([], q) == Ok([q]) && Parsed(Encoded([q])).Err?
  {
    var q := Peer(p.name + ['\U{01}'], p.target);
    ControlByteValid(p);
    NotPrintable(q, |p.name|);
    ListOfOne(q);
    RoundTrip([q]);
  }

  lemma ControlByteValid(p: Peer)
    requires ValidatePeer(p).None? && Ascii(p.name) && IsGraphic(p.name[0])
    ensures ValidatePeer(Peer(p.name + ['\U{01}'], p.target)).None? && Ascii(p.name + ['\U{01}'])
  {
    var name := p.name + ['\U{01}'];
    TrimLeftStops(name);
    ControlByteAllowed(p.name);
  }

  lemma ListOfOne(q: Peer)
    requires ValidatePeer(q).None?
    ensures ValidList([q]) && AddPeer([], q) == Ok([q])
  {
    assert [] + [q] == [q];
  }

  lemma NotPrintable(q: Peer, i: nat)
    requires i < |q.name| && q.name[i] < ' '
    ensures !AllPrintable([q])
  {
    assert !PeerPrintable([q][0]);
  }

  lemma ControlByteAllowed(name: string)
    requires !ContainsAny(name, NAME_FORBIDDEN)
    ensures !ContainsAny(name + ['\U{01}'], NAME_FORBIDDEN)
  {
    assert forall i :: 0 <= i < |name| ==> name[i] !in NAME_FORBIDDEN;
    assert '\U{01}' !in NAME_FORBIDDEN;
  }

  lemma TrimLeftStops(s: string)
    requires s != "" && IsGraphic(s[0])
    ensures TrimSpace(s) != ""
  {
    assert TrimLeft(s) == s;
    TrimRightKeeps(s);
  }

  lemma {:induction false} TrimRightKeeps(s: string)
    requires s != "" && IsGraphic(s[0])
    ensures TrimRight(s) != ""
    decreases |s|
  {
    var w := TrailingSpace(s);
    if w != 0 {
      assert w < |s|;
      TrimRightKeeps(s[..|s| - w]);
    }
  }

  /** What loads is a valid list. */
  lemma ParsedIsValid(text: string)
    requires Parsed(text).Ok?
    ensures ValidList(Parsed(text).value)
  {
  }

  // ---- the list -------------------------------------------------------------------------------

  /** A peer is added, at the end, exactly when it is valid and its name is new. */
  lemma AddExact(ps: seq<Peer>, p: Peer)
    ensures AddPeer(ps, p).Ok? <==> ValidatePeer(p).None? && forall i :: 0 <= i < |ps| ==> ps[i].name != p.name
    ensures AddPeer(ps, p).Ok? ==> AddPeer(ps, p).value == ps + [p]
  {
    var found := FindPeer(ps, p.name);
    if found.Some? {
      var i :| 0 <= i < |ps| && ps[i] == found.value;
      assert ps[i].name == p.name;
    }
  }

  /** Adding keeps the list valid, and removing the added peer restores it. */
  lemma AddThenRemove(ps: seq<Peer>, p: Peer)
    requires ValidList(ps) && AddPeer(ps, p).Ok?
    ensures ValidList(AddPeer(ps, p).value)
    ensures RemovePeer(AddPeer(ps, p).value, p.name) == Ok(ps)
  {
    var added := ps + [p];
    RemoveAt(added, p.name, |ps|);
    assert added[..|ps|] + added[|ps| + 1..] == ps;
  }

  lemma {:induction false} FindUnique(ps: seq<Peer>, i: nat)
    requires NamesUnique(ps) && i < |ps|
    ensures FindPeer(ps, ps[i].name) == Some(ps[i])
  {
    if i > 0 {
      FindUnique(ps[1..], i - 1);
    }
  }

  /** Removing takes out that name and nothing else, and keeps the order of the rest. */
  lemma {:induction false} RemoveExact(ps: seq<Peer>, name: string, other: string)
    requires ValidList(ps)
    ensures RemovePeer(ps, name).Ok? <==> FindPeer(ps, name).Some?
    ensures RemovePeer(ps, name).Ok? ==>
      && ValidList(RemovePeer(ps, name).value) && |RemovePeer(ps, name).value| == |ps| - 1
      && FindPeer(RemovePeer(ps, name).value, other) == if other == name then None else FindPeer(ps, other)
  {
    if FindPeer(ps, name).None? {
      RemoveAt(ps, name, |ps|);
    } else {
      var i :| 0 <= i < |ps| && ps[i].name == name;
      RemoveAt(ps, name, i);
      CutOut(ps, i, other);
    }
  }

  lemma CutAt(ps: seq<Peer>, i: nat, j: nat)
    requires i < |ps| && j < |ps| - 1
    ensures (ps[..i] + ps[i + 1..])[j] == ps[if j < i then j else j + 1]
  {
  }

  lemma CutValid(ps: seq<Peer>, i: nat)
    requires ValidList(ps) && i < |ps|
    ensures ValidList(ps[..i] + ps[i + 1..])
    ensures FindPeer(ps[..i] + ps[i + 1..], ps[i].name).None?
  {
    var rest := ps[..i] + ps[i + 1..];
    forall j | 0 <= j < |rest|
      ensures rest[j] == ps[if j < i then j else j + 1]
    {
      CutAt(ps, i, j);
    }
    assert NamesUnique(rest);
    assert forall j :: 0 <= j < |rest| ==> rest[j].name != ps[i].name;
  }

  lemma CutOut(ps: seq<Peer>, i: nat, other: string)
    requires ValidList(ps) && i < |ps|
    ensures var rest := ps[..i] + ps[i + 1..];
      && ValidList(rest)
      && FindPeer(rest, other) == if other == ps[i].name then None else FindPeer(ps, other)
  {
    var rest := ps[..i] + ps[i + 1..];
    CutValid(ps, i);
    if other != ps[i].name {
      if FindPeer(ps, other).Some? {
        var k :| 0 <= k < |ps| && ps[k].name == other;
        FindUnique(ps, k);
        var j := if k < i then k else k - 1;
        CutAt(ps, i, j);
        FindUnique(rest, j);
      } else {
        forall j | 0 <= j < |rest|
          ensures rest[j].name != other
        {
          CutAt(ps, i, j);
        }
      }
    }
  }
}
