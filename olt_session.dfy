/**
 * The OLT line-terminal session of gestion_red/connect.py: the login handshake of
 * `connect_olt` and the write/read half of `execute_olt_command`.
 *
 * The device is abstracted as the byte stream it sends back (everything it sends
 * before it goes quiet); a read that waits for a marker takes the stream up to and
 * including the first occurrence of that marker, or all of it when the marker never
 * arrives (the read timed out).
 */
module OltSession {
  import opened Common
  import OltOutput

  newtype byte = x: int | 0 <= x < 256

  /** Every character of `s` is 7-bit ASCII. */
  predicate IsAscii(s: string) {
    forall i :: 0 <= i < |s| ==> s[i] as int < 128
  }

  lemma AsciiAppend(a: string, b: string)
    ensures IsAscii(a + b) <==> IsAscii(a) && IsAscii(b)
  {
    if IsAscii(a) && IsAscii(b) {
      forall i | 0 <= i < |a + b| ensures (a + b)[i] as int < 128 {
        if i >= |a| { assert (a + b)[i] == b[i - |a|]; }
      }
    }
    if IsAscii(a + b) {
      forall i | 0 <= i < |a| ensures a[i] as int < 128 {
        assert (a + b)[i] == a[i];
      }
      forall i | 0 <= i < |b| ensures b[i] as int < 128 {
        assert (a + b)[|a| + i] == b[i];
      }
    }
  }

  /** `s.encode('ascii')`; None where Python raises UnicodeEncodeError. */
  function Encode(s: string): (b: Option<seq<byte>>)
    ensures b.Some? <==> IsAscii(s)
    ensures b.Some? ==> |b.value| == |s|
  {
    if s == [] then Some([])
    else if s[0] as int >= 128 then None
    else match Encode(s[1..])
      case None => None
      case Some(t) => Some([s[0] as int as byte] + t)
  }

  /** `b.decode('ascii')`; None where Python raises UnicodeDecodeError. */
  function Decode(b: seq<byte>): (s: Option<string>)
    ensures s.Some? ==> |s.value| == |b|
  {
    if b == [] then Some([])
    else if b[0] >= 128 then None
    else match Decode(b[1..])
      case None => None
      case Some(t) => Some([b[0] as int as char] + t)
  }

  /** Decoding fails exactly when some byte is not 7-bit. */
  lemma {:induction false} DecodeDefined(b: seq<byte>)
    ensures Decode(b).Some? <==> forall i :: 0 <= i < |b| ==> b[i] < 128
    decreases |b|
  {
    if b != [] {
      DecodeDefined(b[1..]);
      assert forall i :: 1 <= i < |b| ==> b[i] == b[1..][i - 1];
    }
  }

  /** Each decoded character has the code of its byte. */
  lemma {:induction false} DecodeAt(b: seq<byte>, i: nat)
    requires Decode(b).Some? && i < |b|
    ensures Decode(b).value[i] as int == b[i] as int
    decreases |b|
  {
    if i > 0 {
      DecodeAt(b[1..], i - 1);
    }
  }

  /** Decoding what was encoded gives the text back. */
  lemma {:induction false} DecodeEncode(s: string)
    requires IsAscii(s)
    ensures Decode(Encode(s).value) == Some(s)
    decreases |s|
  {
    if s != [] {
      assert IsAscii(s[1..]) by {
        forall i | 0 <= i < |s[1..]| ensures s[1..][i] as int < 128 {
          assert s[1..][i] == s[i + 1];
        }
      }
      DecodeEncode(s[1..]);
      var t := Encode(s[1..]).value;
      var e := Encode(s).value;
      assert e == [s[0] as int as byte] + t;
      assert e[1..] == t;
      assert [s[0]] + s[1..] == s;
    }
  }

  /** Encoding what was decoded gives the bytes back. */
  lemma {:induction false} EncodeDecode(b: seq<byte>)
    requires Decode(b).Some?
    ensures Encode(Decode(b).value) == Some(b)
    decreases |b|
  {
    if b != [] {
      EncodeDecode(b[1..]);
      var t := Decode(b[1..]).value;
      var s := Decode(b).value;
      assert s == [b[0] as int as char] + t;
      assert s[1..] == t;
      assert [b[0]] + b[1..] == b;
    }
  }

  /** Decoding distributes over concatenation. */
  lemma {:induction false} DecodeAppend(a: seq<byte>, b: seq<byte>)
    requires Decode(a).Some? && Decode(b).Some?
    ensures Decode(a + b) == Some(Decode(a).value + Decode(b).value)
    decreases |a|
  {
    var db := Decode(b).value;
    if a == [] {
      assert a + b == b;
      assert Decode(a).value == [];
      assert [] + db == db;
    } else {
      var c := a[0] as int as char;
      var t := Decode(a[1..]).value;
      assert Decode(a).value == [c] + t;
      DecodeAppend(a[1..], b);
      var ab := a + b;
      assert ab[0] == a[0] && ab[1..] == a[1..] + b;
      assert Decode(ab[1..]) == Some(t + db);
      assert Decode(ab) == Some([c] + (t + db));
      assert ([c] + t) + db == [c] + (t + db);
    }
  }

  /** The bytes written for a command: `command.encode('ascii') + b'\n'`. */
  function Frame(command: string): (f: Option<seq<byte>>)
    ensures f.Some? <==> IsAscii(command)
    ensures f.Some? ==> |f.value| == |command| + 1 && f.value[|command|] == 10
  {
    match Encode(command)
    case None => None
    case Some(b) => Some(b + [10])
  }

  /** Number of newline bytes in `b`. */
  function Newlines(b: seq<byte>): nat
  {
    if b == [] then 0 else (if b[0] == 10 then 1 else 0) + Newlines(b[1..])
  }

  /** Number of newline bytes in `a + b`. */
  lemma {:induction false} NewlinesAppend(a: seq<byte>, b: seq<byte>)
    ensures Newlines(a + b) == Newlines(a) + Newlines(b)
    decreases |a|
  {
    if a != [] {
      NewlinesAppend(a[1..], b);
      assert (a + b)[0] == a[0];
      assert (a + b)[1..] == a[1..] + b;
      calc {
        Newlines(a + b);
        (if a[0] == 10 then 1 else 0) + Newlines(a[1..] + b);
        (if a[0] == 10 then 1 else 0) + Newlines(a[1..]) + Newlines(b);
      }
    } else {
      assert a + b == b;
    }
  }

  /** An ASCII text without '\n' encodes to bytes without a newline byte. */
  lemma {:induction false} EncodeNoNewlines(s: string)
    requires IsAscii(s) && '\n' !in s
    ensures Newlines(Encode(s).value) == 0
    decreases |s|
  {
    if s != [] {
      assert s[0] in s;
      assert IsAscii(s[1..]) by {
        forall i | 0 <= i < |s[1..]| ensures s[1..][i] as int < 128 {
          assert s[1..][i] == s[i + 1];
        }
      }
      assert '\n' !in s[1..] by {
        forall i | 0 <= i < |s[1..]| ensures s[1..][i] != '\n' {
          assert s[1..][i] == s[i + 1];
        }
      }
      EncodeNoNewlines(s[1..]);
      var e := Encode(s).value;
      assert e == [s[0] as int as byte] + Encode(s[1..]).value;
      assert e[1..] == Encode(s[1..]).value;
    }
  }

  /** A command can be framed iff it is ASCII; the frame decodes to the command followed by
      one '\n', ends in that newline, and holds no other newline when the command has none. */
  lemma FrameShape(command: string)
    ensures Frame(command).Some? <==> IsAscii(command)
    ensures Frame(command).Some? ==>
      var f := Frame(command).value;
      && |f| == |command| + 1
      && f[|command|] == 10
      && Decode(f) == Some(command + "\n")
      && ('\n' !in command ==> Newlines(f) == 1)
  {
    if IsAscii(command) {
      var e := Encode(command).value;
      DecodeEncode(command);
      var nl: seq<byte> := [10];
      assert nl[1..] == [];
      assert Decode(nl[1..]) == Some([]);
      assert nl[0] == 10 && (10 as byte) as int as char == '\n';
      assert Decode(nl) == Some(['\n'] + []);
      assert ['\n'] + [] == "\n";
      assert Decode(nl) == Some("\n");
      DecodeAppend(e, [10]);
      if '\n' !in command {
        EncodeNoNewlines(command);
        NewlinesAppend(e, [10]);
      }
    }
  }

  /** A byte string of ASCII text, for the fixed markers. */
  function Bytes(s: string): (b: seq<byte>)
    requires IsAscii(s)
    ensures Encode(s) == Some(b)
  {
    Encode(s).value
  }

  const UsernamePrompt: seq<byte> := Bytes("Username:")
  const PasswordPrompt: seq<byte> := Bytes("Password:")
  /** The command prompt: `#`. */
  const Prompt: seq<byte> := [35]

  /** The prompt is the ASCII byte of `#`, built like the login markers. */
  lemma PromptMarker()
    ensures Prompt == Bytes("#")
    ensures Decode(Prompt) == Some("#")
  {
    assert Encode("#").value == [35];
    MarkerText("#");
  }

  /** A marker built from ASCII text decodes back to that text. */
  lemma MarkerText(s: string)
    requires IsAscii(s)
    ensures Decode(Bytes(s)) == Some(s)
  {
    DecodeEncode(s);
  }

  /** `needle` occurs in `hay` starting at `j`. */
  predicate OccursAt(hay: seq<byte>, needle: seq<byte>, j: nat) {
    j + |needle| <= |hay| && hay[j..j + |needle|] == needle
  }

  /** An occurrence past the first byte is an occurrence in the tail. */
  lemma OccursShift(hay: seq<byte>, needle: seq<byte>, n: nat)
    requires hay != []
    ensures forall j :: 1 <= j <= n ==> (OccursAt(hay, needle, j) <==> OccursAt(hay[1..], needle, j - 1))
  {
    forall j | 1 <= j <= n
      ensures OccursAt(hay, needle, j) <==> OccursAt(hay[1..], needle, j - 1)
    {
      if j + |needle| <= |hay| {
        SliceOfTail(hay, j, j + |needle|);
      }
    }
  }

  /** A slice of the stream past its first byte is the same slice of its tail. */
  lemma SliceOfTail(hay: seq<byte>, a: nat, b: nat)
    requires 1 <= a <= b <= |hay|
    ensures hay[a..b] == hay[1..][a - 1..b - 1]
  {
    forall m | 0 <= m < b - a
      ensures hay[a..b][m] == hay[1..][a - 1..b - 1][m]
    {
    }
  }

  /** The first position where `needle` occurs in `hay`. */
  function Find(hay: seq<byte>, needle: seq<byte>): (r: Option<nat>)
    ensures r.Some? ==> OccursAt(hay, needle, r.value)
    ensures r.Some? ==> forall j :: 0 <= j < r.value ==> !OccursAt(hay, needle, j)
    ensures r.None? ==> forall j :: 0 <= j <= |hay| ==> !OccursAt(hay, needle, j)
    decreases |hay|
  {
    if needle <= hay then
      assert hay[0..|needle|] == needle;
      Some(0)
    else if hay == [] then None
    else
      assert !OccursAt(hay, needle, 0);
      OccursShift(hay, needle, |hay|);
      match Find(hay[1..], needle)
      case None => None
      case Some(i) =>
        assert OccursAt(hay[1..], needle, i);
        Some(i + 1)
  }

  /** What is left on the wire after the first occurrence of `marker`, if it occurs. */
  function After(stream: seq<byte>, marker: seq<byte>): Option<seq<byte>>
  {
    match Find(stream, marker)
    case None => None
    case Some(i) => Some(stream[i + |marker|..])
  }

  /** What `read_until(marker)` returns, and what is left on the wire after it. */
  function ReadUntil(stream: seq<byte>, marker: seq<byte>): (r: (seq<byte>, seq<byte>))
    ensures r.0 + r.1 == stream
    ensures After(stream, marker).Some? ==> r.1 == After(stream, marker).value
    ensures After(stream, marker).None? ==> r.0 == stream
  {
    var f := Find(stream, marker);
    if f.None? then
      assert After(stream, marker).None?;
      (stream, [])
    else
      var n := f.value + |marker|;
      assert After(stream, marker) == Some(stream[n..]);
      assert stream[..n] + stream[n..] == stream;
      (stream[..n], stream[n..])
  }

  /** A `#` arrives before the device goes quiet, and the text up to it is ASCII. */
  predicate PromptSeen(rest: seq<byte>) {
    match Find(rest, Prompt)
    case None => false
    case Some(k) => Decode(rest[..k + 1]).Some?
  }

  /** The check of `connect_olt` on the text read after the password (decode it, look for
      `#`) holds exactly when the prompt was seen. */
  lemma PromptCheck(rest: seq<byte>)
    ensures var raw := ReadUntil(rest, Prompt).0;
      (Decode(raw).Some? && '#' in Decode(raw).value) <==> PromptSeen(rest)
  {
    var raw := ReadUntil(rest, Prompt).0;
    match Find(rest, Prompt)
    case Some(k) =>
      assert raw == rest[..k + 1];
      assert rest[k..k + 1] == [35];
      if Decode(raw).Some? {
        DecodeAt(raw, k);
        assert Decode(raw).value[k] == '#';
      }
    case None =>
      assert raw == rest;
      if Decode(raw).Some? && '#' in Decode(raw).value {
        var m :| 0 <= m < |raw| && Decode(raw).value[m] == '#';
        DecodeAt(raw, m);
        assert rest[m..m + 1] == [35];
        assert OccursAt(rest, Prompt, m);
        assert false;
      }
  }

  /** Whether the login handshake of `connect_olt` succeeds against a device that sends
      `stream`: the device shows `Username:`, then `Password:`, then a `#` arrives before
      the wait times out with ASCII text before it; and both credentials are ASCII. */
  predicate LoginSucceeds(stream: seq<byte>, user: string, password: string) {
    && IsAscii(user) && IsAscii(password)
    && After(stream, UsernamePrompt).Some?
    && After(After(stream, UsernamePrompt).value, PasswordPrompt).Some?
    && PromptSeen(After(After(stream, UsernamePrompt).value, PasswordPrompt).value)
  }

  /** `a` occurs in `stream`, later `b`, and later still `c`. */
  ghost predicate InOrder(stream: seq<byte>, a: seq<byte>, b: seq<byte>, c: seq<byte>) {
    exists u: nat, p: nat, h: nat ::
      && OccursAt(stream, a, u) && OccursAt(stream, b, p) && OccursAt(stream, c, h)
      && u + |a| <= p && p + |b| <= h
  }

  /** An occurrence in what is left after `k` bytes is an occurrence `k` bytes further on. */
  lemma OccursIn(hay: seq<byte>, needle: seq<byte>, k: nat, j: nat)
    requires k <= |hay|
    ensures OccursAt(hay[k..], needle, j) <==> OccursAt(hay, needle, k + j)
  {
    if k + j + |needle| <= |hay| {
      assert hay[k..][j..j + |needle|] == hay[k + j..k + j + |needle|];
    }
  }

  /** The first occurrence comes no later than any occurrence. */
  lemma FindFirst(hay: seq<byte>, needle: seq<byte>, x: nat)
    requires OccursAt(hay, needle, x)
    ensures Find(hay, needle).Some? && Find(hay, needle).value <= x
  {
  }

  /** A wait that found its marker leaves what follows the marker's first occurrence. */
  lemma AfterFound(hay: seq<byte>, needle: seq<byte>) returns (n: nat)
    requires After(hay, needle).Some?
    ensures |needle| <= n <= |hay| && OccursAt(hay, needle, n - |needle|)
    ensures After(hay, needle).value == hay[n..]
  {
    n := Find(hay, needle).value + |needle|;
  }

  /** A marker that occurs at `x` is found by the wait, which stops no later than `x`. */
  lemma WaitFinds(hay: seq<byte>, needle: seq<byte>, x: nat) returns (n: nat)
    requires OccursAt(hay, needle, x)
    ensures n <= x + |needle| && n <= |hay|
    ensures After(hay, needle).Some? && After(hay, needle).value == hay[n..]
  {
    FindFirst(hay, needle, x);
    var f := Find(hay, needle).value;
    assert OccursAt(hay, needle, f);
    n := f + |needle|;
    assert After(hay, needle) == Some(hay[n..]);
  }

  /** Two successful waits saw their markers in order, and left a suffix of the stream. */
  lemma TwoWaits(stream: seq<byte>, a: seq<byte>, b: seq<byte>) returns (n1: nat, n2: nat)
    requires After(stream, a).Some? && After(After(stream, a).value, b).Some?
    ensures |a| <= n1 && |b| <= n2 && n1 + n2 <= |stream|
    ensures OccursAt(stream, a, n1 - |a|) && OccursAt(stream, b, n1 + n2 - |b|)
    ensures After(After(stream, a).value, b).value == stream[n1 + n2..]
  {
    n1 := AfterFound(stream, a);
    var s1 := stream[n1..];
    n2 := AfterFound(s1, b);
    OccursIn(stream, b, n1, n2 - |b|);
    assert s1[n2..] == stream[n1 + n2..];
  }

  /** Markers found at `u`, `p` and `h`, in that order, came in order. */
  lemma InOrderAt(stream: seq<byte>, a: seq<byte>, b: seq<byte>, c: seq<byte>, u: nat, p: nat, h: nat)
    requires OccursAt(stream, a, u) && OccursAt(stream, b, p) && OccursAt(stream, c, h)
    requires u + |a| <= p && p + |b| <= h
    ensures InOrder(stream, a, b, c)
  {
  }

  /** A marker found in what is left after `n` bytes occurs `n` bytes further on. */
  lemma FoundIn(stream: seq<byte>, n: nat, c: seq<byte>) returns (k: nat)
    requires n <= |stream| && Find(stream[n..], c).Some?
    ensures OccursAt(stream, c, n + k)
  {
    k := Find(stream[n..], c).value;
    OccursIn(stream, c, n, k);
  }

  /** Markers that come in order are each found by the wait after the previous one, and
      what the second wait leaves is a suffix of the stream. */
  lemma OrderedWaits(stream: seq<byte>, a: seq<byte>, b: seq<byte>, c: seq<byte>) returns (n: nat)
    requires InOrder(stream, a, b, c)
    ensures After(stream, a).Some? && After(After(stream, a).value, b).Some?
    ensures n <= |stream| && After(After(stream, a).value, b).value == stream[n..]
    ensures Find(stream[n..], c).Some?
  {
    var u: nat, p: nat, h: nat :| && OccursAt(stream, a, u) && OccursAt(stream, b, p) && OccursAt(stream, c, h)
                   && u + |a| <= p && p + |b| <= h;
    n := WaitsFrom(stream, a, b, c, u, p, h);
  }

  /** The waits find markers that occur at `u`, `p` and `h`, in that order. */
  lemma WaitsFrom(stream: seq<byte>, a: seq<byte>, b: seq<byte>, c: seq<byte>, u: nat, p: nat, h: nat) returns (n: nat)
    requires OccursAt(stream, a, u) && OccursAt(stream, b, p) && OccursAt(stream, c, h)
    requires u + |a| <= p && p + |b| <= h
    ensures After(stream, a).Some? && After(After(stream, a).value, b).Some?
    ensures n <= |stream| && After(After(stream, a).value, b).value == stream[n..]
    ensures Find(stream[n..], c).Some?
  {
    var n1 := WaitFinds(stream, a, u);
    OccursIn(stream, b, n1, p - n1);
    var n2 := WaitFinds(stream[n1..], b, p - n1);
    assert stream[n1..][n2..] == stream[n1 + n2..];
    n := n1 + n2;
    OccursIn(stream, c, n, h - n);
    FindFirst(stream[n..], c, h - n);
  }

  /** A successful login saw `Username:`, `Password:` and `#` in that order. */
  lemma LoginNeedsOrder(stream: seq<byte>, user: string, password: string)
    requires LoginSucceeds(stream, user, password)
    ensures InOrder(stream, UsernamePrompt, PasswordPrompt, Prompt)
  {
    WaitsInOrder(stream, UsernamePrompt, PasswordPrompt, Prompt);
  }

  /** Three successful waits, one after the other, saw the three markers in order. */
  lemma WaitsInOrder(stream: seq<byte>, a: seq<byte>, b: seq<byte>, c: seq<byte>)
    requires After(stream, a).Some? && After(After(stream, a).value, b).Some?
    requires Find(After(After(stream, a).value, b).value, c).Some?
    ensures InOrder(stream, a, b, c)
  {
    var n1, n2 := TwoWaits(stream, a, b);
    var k := FoundIn(stream, n1 + n2, c);
    InOrderAt(stream, a, b, c, n1 - |a|, n1 + n2 - |b|, n1 + n2 + k);
  }

  /** Against a device that speaks ASCII, markers in order and ASCII credentials log in. */
  lemma OrderSuffices(stream: seq<byte>, user: string, password: string)
    requires Decode(stream).Some? && IsAscii(user) && IsAscii(password)
    requires InOrder(stream, UsernamePrompt, PasswordPrompt, Prompt)
    ensures LoginSucceeds(stream, user, password)
  {
    var n := OrderedWaits(stream, UsernamePrompt, PasswordPrompt, Prompt);
    var rest := stream[n..];
    var k := Find(rest, Prompt).value;
    DecodeDefined(stream);
    DecodeDefined(rest[..k + 1]);
  }

  /** A login succeeds only if `Username:`, `Password:` and `#` came in that order and both
      credentials are ASCII; against a device that speaks ASCII, that is also enough. */
  lemma LoginOrder(stream: seq<byte>, user: string, password: string)
    ensures LoginSucceeds(stream, user, password) ==>
      IsAscii(user) && IsAscii(password) && InOrder(stream, UsernamePrompt, PasswordPrompt, Prompt)
    ensures Decode(stream).Some? && IsAscii(user) && IsAscii(password)
            && InOrder(stream, UsernamePrompt, PasswordPrompt, Prompt) ==>
      LoginSucceeds(stream, user, password)
  {
    if LoginSucceeds(stream, user, password) {
      LoginNeedsOrder(stream, user, password);
    }
    if Decode(stream).Some? && IsAscii(user) && IsAscii(password)
       && InOrder(stream, UsernamePrompt, PasswordPrompt, Prompt) {
      OrderSuffices(stream, user, password);
    }
  }

  /** A telnet connection to the OLT: what has been written to it, and what the device
      still has to say. */
  class TelnetSession {
    var incoming: seq<byte>
    var sent: seq<byte>

    constructor (stream: seq<byte>)
      ensures incoming == stream && sent == []
    {
      incoming := stream;
      sent := [];
    }

    /** `tn.write(data)`. */
    method Write(data: seq<byte>)
      modifies this
      ensures sent == old(sent) + data && incoming == old(incoming)
    {
      sent := sent + data;
    }

    /** `tn.read_until(marker)`: `found` says whether the marker arrived (otherwise the read
        gave up with whatever had arrived). */
    method ReadUntilMarker(marker: seq<byte>) returns (data: seq<byte>, found: bool)
      modifies this
      ensures (data, incoming) == ReadUntil(old(incoming), marker)
      ensures found <==> After(old(incoming), marker).Some?
      ensures sent == old(sent)
    {
      var r := ReadUntil(incoming, marker);
      found := After(incoming, marker).Some?;
      data, incoming := r.0, r.1;
    }
  }

  /** The handshake of `connect_olt`: wait for `Username:`, send the user, wait for
      `Password:`, send the password, then wait for `#`; `ok` is false where the source
      raises. A wait without timeout whose marker never comes ends the attempt. */
  method ConnectOlt(tn: TelnetSession, user: string, password: string) returns (ok: bool)
    modifies tn
    ensures ok <==> LoginSucceeds(old(tn.incoming), user, password)
    ensures ok ==> tn.sent == old(tn.sent) + Frame(user).value + Frame(password).value
    ensures After(old(tn.incoming), UsernamePrompt).None? ==> tn.sent == old(tn.sent) && tn.incoming == []
    ensures After(old(tn.incoming), UsernamePrompt).Some? ==>
      var afterUser := After(old(tn.incoming), UsernamePrompt).value;
      var afterPassword := After(afterUser, PasswordPrompt);
      if !IsAscii(user) then
        tn.sent == old(tn.sent) && tn.incoming == afterUser
      else if afterPassword.None? then
        tn.sent == old(tn.sent) + Frame(user).value && tn.incoming == []
      else if !IsAscii(password) then
        tn.sent == old(tn.sent) + Frame(user).value && tn.incoming == afterPassword.value
      else
        && tn.sent == old(tn.sent) + Frame(user).value + Frame(password).value
        && tn.incoming == ReadUntil(afterPassword.value, Prompt).1
  {
    var _, gotUser := tn.ReadUntilMarker(UsernamePrompt);
    if !gotUser { return false; }
    var u := Frame(user);
    if u.None? { return false; }
    tn.Write(u.value);
    var _, gotPassword := tn.ReadUntilMarker(PasswordPrompt);
    if !gotPassword { return false; }
    var p := Frame(password);
    if p.None? { return false; }
    tn.Write(p.value);
    PromptCheck(tn.incoming);
    var raw, _ := tn.ReadUntilMarker(Prompt);
    var text := Decode(raw);
    ok := text.Some? && '#' in text.value;
  }

  /** `execute_olt_command`: write the command and a newline, read until `#` (or until the
      wait times out: the prompt is never checked here), decode, and clean the text.
      None stands for the UnicodeEncodeError / UnicodeDecodeError the source raises. */
  method ExecuteOltCommand(tn: TelnetSession, command: string) returns (r: Option<string>)
    modifies tn
    ensures !IsAscii(command) ==> r == None && tn.sent == old(tn.sent) && tn.incoming == old(tn.incoming)
    ensures IsAscii(command) ==>
      && tn.sent == old(tn.sent) + Frame(command).value
      && (ReadUntil(old(tn.incoming), Prompt).0, tn.incoming) == ReadUntil(old(tn.incoming), Prompt)
      && (r.Some? <==> Decode(ReadUntil(old(tn.incoming), Prompt).0).Some?)
      && (r.Some? ==> r.value == OltOutput.Clean(Decode(ReadUntil(old(tn.incoming), Prompt).0).value, command))
  {
    var frame := Frame(command);
    if frame.None? { return None; }
    tn.Write(frame.value);
    var raw, _ := tn.ReadUntilMarker(Prompt);
    var text := Decode(raw);
    if text.None? { return None; }
    r := Some(OltOutput.Clean(text.value, command));
  }
}
