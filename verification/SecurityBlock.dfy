// RenderSecurityBlock: the files a sandbox needs, printed as a cloud-init
// write_files list, and a parser that reads such a list back.
module SecurityBlock {
  import opened Records
  import opened Base64
  import opened Text

  datatype File = File(path: string, content: seq<Byte>, permissions: string)

  function ToBytes(s: string): seq<Byte> {
    seq(|s|, i requires 0 <= i < |s| => s[i] as int % 256)
  }

  // ---- Printing ----------------------------------------------------------------

  const PATH_KEY := "  - path: "
  const CONTENT_KEY := "    encoding: b64\n    content: "
  const PERMISSIONS_KEY := "    owner: root:root\n    permissions: '"

  // One list entry up to its last line.
  function Entry(f: File): string {
    PATH_KEY + f.path + "\n" + CONTENT_KEY + Encode(f.content) + "\n" + PERMISSIONS_KEY + f.permissions + "'" + "\n"
  }

  // The entry in words.
  lemma EntryInWords(f: File)
    ensures Entry(f) ==
            "  - path: " + f.path + "\n" + "    encoding: b64\n    content: " + Encode(f.content) + "\n"
            + "    owner: root:root\n    permissions: '" + f.permissions + "'" + "\n"
  {
    hide Encode;
  }

  function Entries(files: seq<File>): string {
    if files == [] then "" else Entry(files[0]) + "\n" + Entries(files[1..])
  }

  function TrimNewline(s: string): string {
    if s != "" && s[|s| - 1] == '\n' then s[..|s| - 1] else s
  }

  // ---- Parsing -------------------------------------------------------------------

  function Expect(s: string, prefix: string): (rest: Option<string>)
    ensures rest.Some? ==> |rest.value| == |s| - |prefix|
  {
    if |prefix| <= |s| && s[..|prefix|] == prefix then Some(s[|prefix|..]) else None
  }

  // What stands before the first `stop`, and what after it.
  function Until(s: string, stop: char): (r: Option<(string, string)>)
    ensures r.Some? ==> |r.value.1| < |s|
  {
    if s == "" then None
    else if s[0] == stop then Some(("", s[1..]))
    else
      match Until(s[1..], stop)
      case None => None
      case Some(r) => Some(([s[0]] + r.0, r.1))
  }

  function Field(s: string, key: string, stop: char): (r: Option<(string, string)>)
    ensures r.Some? ==> |r.value.1| < |s|
  {
    match Expect(s, key)
    case None => None
    case Some(rest) => Until(rest, stop)
  }

  function ParseEntry(s: string): (r: Option<(File, string)>)
    ensures r.Some? ==> |r.value.1| < |s|
  {
    var path := Field(s, PATH_KEY, '\n');
    if path.None? then None
    else
      var content := Field(path.value.1, CONTENT_KEY, '\n');
      if content.None? then None
      else
        var permissions := Field(content.value.1, PERMISSIONS_KEY, '\'');
        if permissions.None? then None
        else
          var bytes, rest := Decode(content.value.0), Expect(permissions.value.1, "\n");
          if bytes.None? || rest.None? then None
          else Some((File(path.value.0, bytes.value, permissions.value.0), rest.value))
  }

  function ParseFiles(s: string): Option<seq<File>>
    decreases |s|
  {
    if s == "" then Some([])
    else
      var first := ParseEntry(s);
      if first.None? then None
      else if first.value.1 == "" then Some([first.value.0])
      else
        var rest := Expect(first.value.1, "\n");
        if rest.None? then None
        else
          var files := ParseFiles(rest.value);
          if files.None? then None else Some([first.value.0] + files.value)
  }

  // ---- Round trip ----------------------------------------------------------------

  predicate Printable(f: File) {
    '\n' !in f.path && '\'' !in f.permissions
  }

  lemma {:induction false} UntilStops(a: string, stop: char, rest: string)
    requires stop !in a
    ensures Until(a + [stop] + rest, stop) == Some((a, rest))
    decreases |a|
  {
    if a == "" {
      assert (a + [stop] + rest)[1..] == rest;
    } else {
      assert (a + [stop] + rest)[1..] == a[1..] + [stop] + rest;
      UntilStops(a[1..], stop, rest);
      assert a == [a[0]] + a[1..];
    }
  }

  lemma FieldReads(key: string, a: string, stop: char, rest: string)
    requires stop !in a
    ensures Field(key + a + [stop] + rest, key, stop) == Some((a, rest))
  {
    var s := key + a + [stop] + rest;
    assert s == key + (a + [stop] + rest);
    assert s[..|key|] == key && s[|key|..] == a + [stop] + rest;
    UntilStops(a, stop, rest);
  }

  lemma EntryParses(f: File, rest: string)
    requires Printable(f)
    ensures ParseEntry(Entry(f) + rest) == Some((f, rest))
  {
    hide PATH_KEY, CONTENT_KEY, PERMISSIONS_KEY, Field, Until, Encode, Decode;
    var tail := "\n" + rest;
    var permissions := PERMISSIONS_KEY + f.permissions + "'" + tail;
    var content := CONTENT_KEY + Encode(f.content) + "\n" + permissions;
    assert Entry(f) + rest == PATH_KEY + f.path + "\n" + content;
    EncodeIsOneLine(f.content);
    DecodeEncode(f.content);
    FieldReads(PATH_KEY, f.path, '\n', content);
    FieldReads(CONTENT_KEY, Encode(f.content), '\n', permissions);
    FieldReads(PERMISSIONS_KEY, f.permissions, '\'', tail);
    assert tail[..1] == "\n" && tail[1..] == rest;
  }

  lemma EntryEnds(f: File)
    ensures Entry(f) != "" && Entry(f)[|Entry(f)| - 1] == '\n'
  {
  }

  // Parsing what was printed gives back the files, whatever bytes they hold.
  lemma {:induction false} ParsePrinted(files: seq<File>)
    requires forall f :: f in files ==> Printable(f)
    ensures ParseFiles(TrimNewline(Entries(files))) == Some(files)
    decreases |files|
  {
    hide Entry, ParseEntry, Printable;
    if files != [] {
      var first, others := files[0], Entries(files[1..]);
      EntryEnds(first);
      ParsePrinted(files[1..]);
      if |files| == 1 {
        assert Entries(files) == Entry(first) + "\n";
        assert TrimNewline(Entries(files)) == Entry(first) + "";
        EntryParses(first, "");
        assert files == [first];
      } else {
        EntriesEnd(files[1..]);
        var rest := "\n" + TrimNewline(others);
        assert TrimNewline(Entries(files)) == Entry(first) + rest;
        EntryParses(first, rest);
        assert rest[..1] == "\n" && rest[1..] == TrimNewline(others);
        assert files == [first] + files[1..];
      }
    }
  }

  lemma {:induction false} EntriesEnd(files: seq<File>)
    requires files != []
    ensures |Entries(files)| > 1 && Entries(files)[|Entries(files)| - 1] == '\n'
    decreases |files|
  {
    hide Entry;
    EntryEnds(files[0]);
    if |files| > 1 {
      EntriesEnd(files[1..]);
    } else {
      assert Entries(files) == Entry(files[0]) + "\n" + "";
    }
  }

  // ---- The files -----------------------------------------------------------------

  datatype Transport = Transport(endpoint: string, ca: seq<Byte>, cert: seq<Byte>, key: seq<Byte>, insecure: bool)

  datatype Params = Params(sandboxId: string, sandboxToken: string, logLevel: string, maxLifetime: string)

  const TLS_CA_PATH := "/etc/openshell/tls/client/ca.crt"
  const TLS_CERT_PATH := "/etc/openshell/tls/client/tls.crt"
  const TLS_KEY_PATH := "/etc/openshell/tls/client/tls.key"
  const TOKEN_PATH := "/etc/openshell/auth/sandbox.jwt"
  const ENVIRONMENT_PATH := "/etc/openshell/supervisor.env"

  // The lines of the supervisor's environment file.
  function Environment(c: Transport, p: Params, quote: string -> string): seq<string> {
    ["OPENSHELL_SANDBOX_ID=" + quote(p.sandboxId),
     "OPENSHELL_SANDBOX_TOKEN_FILE=" + quote(TOKEN_PATH),
     "OPENSHELL_GATEWAY_ENDPOINT=" + quote(c.endpoint),
     "OPENSHELL_ENDPOINT=" + quote(c.endpoint),
     "OPENSHELL_LOG_LEVEL=" + quote(p.logLevel),
     "HTTP_PROXY=" + quote(c.endpoint),
     "HTTPS_PROXY=" + quote(c.endpoint)]
    + if c.insecure then []
      else
        ["OPENSHELL_TLS_CA=" + quote(TLS_CA_PATH),
         "OPENSHELL_TLS_CERT=" + quote(TLS_CERT_PATH),
         "OPENSHELL_TLS_KEY=" + quote(TLS_KEY_PATH)]
  }

  // What a sandbox is given: its environment and its token, and with TLS the
  // CA, the client certificate and the client key.
  ghost predicate Provisions(files: seq<File>, c: Transport, p: Params, quote: string -> string) {
    && |files| == (if c.insecure then 2 else 5)
    && files[0] == File(ENVIRONMENT_PATH, ToBytes(Join(Environment(c, p, quote), "\n") + "\n"), "0600")
    && files[1] == File(TOKEN_PATH, ToBytes(p.sandboxToken + "\n"), "0600")
    && (!c.insecure ==>
          files[2..] == [File(TLS_CA_PATH, c.ca, "0644"), File(TLS_CERT_PATH, c.cert, "0600"), File(TLS_KEY_PATH, c.key, "0600")])
  }

  // The bytes of a text.
  ghost predicate Spells(content: seq<Byte>, text: string) {
    |content| == |text| && forall i :: 0 <= i < |text| && text[i] as int < 256 ==> content[i] == text[i] as int
  }

  // The files in words: the environment, the token, and the three of TLS.
  ghost predicate Promised(files: seq<File>, c: Transport, p: Params, quote: string -> string) {
    && |files| == (if c.insecure then 2 else 5)
    && files[0].path == "/etc/openshell/supervisor.env" && files[0].permissions == "0600"
    && Spells(files[0].content, Join(Environment(c, p, quote), "\n") + "\n")
    && files[1].path == "/etc/openshell/auth/sandbox.jwt" && files[1].permissions == "0600"
    && Spells(files[1].content, p.sandboxToken + "\n")
    && (!c.insecure ==>
          && files[2] == File("/etc/openshell/tls/client/ca.crt", c.ca, "0644")
          && files[3] == File("/etc/openshell/tls/client/tls.crt", c.cert, "0600")
          && files[4] == File("/etc/openshell/tls/client/tls.key", c.key, "0600"))
  }

  lemma ProvisionsInWords(files: seq<File>, c: Transport, p: Params, quote: string -> string)
    requires Provisions(files, c, p, quote)
    ensures Promised(files, c, p, quote)
  {
    hide Join, Environment;
    if !c.insecure {
      assert files[2..][0] == files[2] && files[2..][1] == files[3] && files[2..][2] == files[4];
    }
  }

  // The environment in words: which variable has which value.
  lemma EnvironmentInWords(c: Transport, p: Params, quote: string -> string)
    ensures
      var env := Environment(c, p, quote);
      && |env| == (if c.insecure then 7 else 10)
      && env[0] == "OPENSHELL_SANDBOX_ID=" + quote(p.sandboxId)
      && env[1] == "OPENSHELL_SANDBOX_TOKEN_FILE=" + quote("/etc/openshell/auth/sandbox.jwt")
      && env[2] == "OPENSHELL_GATEWAY_ENDPOINT=" + quote(c.endpoint)
      && env[3] == "OPENSHELL_ENDPOINT=" + quote(c.endpoint)
      && env[4] == "OPENSHELL_LOG_LEVEL=" + quote(p.logLevel)
      && env[5] == "HTTP_PROXY=" + quote(c.endpoint)
      && env[6] == "HTTPS_PROXY=" + quote(c.endpoint)
      && (!c.insecure ==>
            && env[7] == "OPENSHELL_TLS_CA=" + quote("/etc/openshell/tls/client/ca.crt")
            && env[8] == "OPENSHELL_TLS_CERT=" + quote("/etc/openshell/tls/client/tls.crt")
            && env[9] == "OPENSHELL_TLS_KEY=" + quote("/etc/openshell/tls/client/tls.key"))
  {
  }

  // A missing value other than the log level, or a control character anywhere.
  predicate Refused(p: Params) {
    || p.sandboxId == "" || p.sandboxToken == "" || p.maxLifetime == ""
    || HasControl(p.sandboxId) || HasControl(p.sandboxToken) || HasControl(p.logLevel) || HasControl(p.maxLifetime)
  }

  method Check(p: Params) returns (ok: bool)
    ensures ok <==> !Refused(p)
  {
    var fields := [("sandbox ID", p.sandboxId), ("sandbox token", p.sandboxToken), ("log level", p.logLevel),
                   ("max lifetime", p.maxLifetime)];
    assert fields[0].1 == p.sandboxId && fields[1].1 == p.sandboxToken && fields[2].1 == p.logLevel
           && fields[3].1 == p.maxLifetime;
    for i := 0 to |fields|
      invariant forall j :: 0 <= j < i ==> (fields[j].1 == "" ==> j == 2) && !HasControl(fields[j].1)
    {
      if fields[i].1 == "" && fields[i].0 != "log level" { return false; }
      if HasControl(fields[i].1) { return false; }
    }
    return true;
  }

  // The method appends to the file list and to the environment, and prints the
  // list; a parser of its text finds exactly the files promised.
  method RenderSecurityBlock(c: Transport, valid: bool, p: Params, quote: string -> string)
    returns (text: Option<string>, ghost files: seq<File>)
    ensures text.Some? <==>
              && valid && p.sandboxId != "" && p.sandboxToken != "" && p.maxLifetime != ""
              && !HasControl(p.sandboxId) && !HasControl(p.sandboxToken) && !HasControl(p.logLevel) && !HasControl(p.maxLifetime)
    ensures text.Some? ==> ParseFiles(text.value) == Some(files) && Promised(files, c, p, quote)
  {
    hide Provisions, Promised, Printable, HasControl, Entry, ParseFiles, TrimNewline;
    text, files := None, [];
    if !valid { return; }
    var ok := Check(p);
    if !ok { return; }
    var list := FilesFor(c, p, quote);
    ProvisionsPrintable(list, c, p, quote);
    ProvisionsInWords(list, c, p, quote);
    files := list;
    var out := "";
    for i := 0 to |list|
      invariant out + Entries(list[i..]) == Entries(list)
    {
      assert list[i..][1..] == list[i + 1..];
      out := out + (Entry(list[i]) + "\n");
    }
    assert list[|list|..] == [] && out + "" == out;
    ParsePrinted(list);
    text := Some(TrimNewline(out));
  }

  lemma LiteralsPrintable()
    ensures '\n' !in ENVIRONMENT_PATH && '\n' !in TOKEN_PATH
    ensures '\n' !in TLS_CA_PATH && '\n' !in TLS_CERT_PATH && '\n' !in TLS_KEY_PATH
    ensures '\'' !in "0600" && '\'' !in "0644"
  {
    assert forall i :: 0 <= i < |ENVIRONMENT_PATH| ==> ENVIRONMENT_PATH[i] != '\n';
    assert forall i :: 0 <= i < |TOKEN_PATH| ==> TOKEN_PATH[i] != '\n';
    assert forall i :: 0 <= i < |TLS_CA_PATH| ==> TLS_CA_PATH[i] != '\n';
    assert forall i :: 0 <= i < |TLS_CERT_PATH| ==> TLS_CERT_PATH[i] != '\n';
    assert forall i :: 0 <= i < |TLS_KEY_PATH| ==> TLS_KEY_PATH[i] != '\n';
  }

  lemma ProvisionsPrintable(files: seq<File>, c: Transport, p: Params, quote: string -> string)
    requires Provisions(files, c, p, quote)
    ensures forall f :: f in files ==> Printable(f)
  {
    hide ENVIRONMENT_PATH, TOKEN_PATH, TLS_CA_PATH, TLS_CERT_PATH, TLS_KEY_PATH, ToBytes, Join, Environment;
    LiteralsPrintable();
    assert files == files[..2] + files[2..];
    assert files[..2] == [files[0], files[1]];
  }

  method FilesFor(c: Transport, p: Params, quote: string -> string) returns (files: seq<File>)
    ensures Provisions(files, c, p, quote)
  {
    hide ToBytes, Join;
    var env := [
      "OPENSHELL_SANDBOX_ID=" + quote(p.sandboxId),
      "OPENSHELL_SANDBOX_TOKEN_FILE=" + quote(TOKEN_PATH),
      "OPENSHELL_GATEWAY_ENDPOINT=" + quote(c.endpoint),
      "OPENSHELL_ENDPOINT=" + quote(c.endpoint),
      "OPENSHELL_LOG_LEVEL=" + quote(p.logLevel),
      "HTTP_PROXY=" + quote(c.endpoint),
      "HTTPS_PROXY=" + quote(c.endpoint)];
    files := [
      File(ENVIRONMENT_PATH, ToBytes(Join(env, "\n") + "\n"), "0600"),
      File(TOKEN_PATH, ToBytes(p.sandboxToken + "\n"), "0600")];
    if !c.insecure {
      env := env + [
        "OPENSHELL_TLS_CA=" + quote(TLS_CA_PATH),
        "OPENSHELL_TLS_CERT=" + quote(TLS_CERT_PATH),
        "OPENSHELL_TLS_KEY=" + quote(TLS_KEY_PATH)];
      files := files[0 := files[0].(content := ToBytes(Join(env, "\n") + "\n"))];
      files := files + [
        File(TLS_CA_PATH, c.ca, "0644"), File(TLS_CERT_PATH, c.cert, "0600"), File(TLS_KEY_PATH, c.key, "0600")];
    }
    assert env == Environment(c, p, quote);
  }

  // ---- The environment file reads back line by line --------------------------------

  function Lines(s: string): seq<string>
    decreases |s|
  {
    match Until(s, '\n')
    case None => []
    case Some(r) => [r.0] + Lines(r.1)
  }

  lemma {:induction false} LinesOfJoined(lines: seq<string>)
    requires lines != [] && forall l :: l in lines ==> '\n' !in l
    ensures Lines(Join(lines, "\n") + "\n") == lines
    decreases |lines|
  {
    if |lines| == 1 {
      assert lines[0] + "\n" == lines[0] + "\n" + "";
      UntilStops(lines[0], '\n', "");
      assert lines == [lines[0]];
    } else {
      var rest := Join(lines[1..], "\n") + "\n";
      assert Join(lines, "\n") + "\n" == lines[0] + "\n" + rest;
      UntilStops(lines[0], '\n', rest);
      LinesOfJoined(lines[1..]);
      assert lines == [lines[0]] + lines[1..];
    }
  }

  // Quoting keeps a value on its line, so no value can add a variable: the
  // file has exactly the lines of the environment.
  lemma OneLinePerVariable(c: Transport, p: Params, quote: string -> string)
    requires forall v :: '\n' !in quote(v)
    ensures Lines(Join(Environment(c, p, quote), "\n") + "\n") == Environment(c, p, quote)
    ensures |Environment(c, p, quote)| == if c.insecure then 7 else 10
  {
    LinesOfJoined(Environment(c, p, quote));
  }
}
