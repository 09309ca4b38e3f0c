/**
 * The file side of the websocket server library: the protected core paths,
 * file removal, the upload path held in the 32-byte `nextPath` buffer, the
 * upload and delete requests, and the library's own frame dispatch.
 *
 * The SPIFFS filesystem is a map from path to contents; the JSON documents
 * arrive already decoded into the fields the handlers read.
 */
module FileServer {
  import opened Util
  import opened CString
  import WebServer

  /** Paths that are never deleted or overwritten. */
  const CorePaths: seq<string> :=
    ["/", "/index.html", "/jquery-3.5.1.js", "/ws.js", "/FileSaver.js", "/style.css", "/favicon.ico"]

  const PathSize: nat := 32
  /** Characters of an upload name copied after the leading slash. */
  const NameLimit: nat := 30
  /** Largest accepted upload, in bytes. */
  const MaxUpload: nat := 128
  /** sizeof(const char *) on the ESP32. */
  const PointerSize: nat := 4

  predicate IsCore(path: string)
  {
    path in CorePaths
  }

  /** A wsSendAck message: type, status and name. */
  datatype Ack = Ack(kind: string, status: string, name: string)

  /** What the handlers print through multiPrintf. */
  datatype Msg =
    | Illegal(path: string)               // "ILLEGAL: Cannot modify core file \"%s\""
    | OpenFailed(path: string)            // "Failed to open file \"%s\" for writing.\n"
    | Uploaded(path: string, length: nat) // "Upload successful: \"%s\" (%d bytes).\n"
    | Truncated(name: string)             // "TRUNCATED FILENAME: \"%.203s\" was longer than 30 characters"
    | Ready(path: string)                 // "DEBUG: Ready to receive file: %s\n"
    | Deleted(path: string)               // "DEBUG: File \"%s\" deleted\n"

  /** The characters strncpy(dst, src, n) writes: the string in `src`, cut at `n`, padded with NULs. */
  function StrNCpy(src: seq<char>, n: nat): (r: seq<char>)
    ensures |r| == n
    ensures var k := Min(|CStr(src)|, n);
      r[..k] == CStr(src)[..k] && forall i :: k <= i < n ==> r[i] == '\0'
  {
    var c := CStr(src);
    var k := Min(|c|, n);
    c[..k] + seq(n - k, _ => '\0')
  }

  /** The upload name as it stands in nextPath after the slash. */
  function StoredName(name: string): (r: string)
    ensures |r| <= NameLimit && '\0' !in r
    ensures r <= CStr(name)
    ensures r == CStr(name) <==> |CStr(name)| <= NameLimit
  {
    var c := CStr(name);
    if |c| <= NameLimit then c else c[..NameLimit]
  }

  /** The copy the upload makes is the stored name followed by padding (the string it holds is the stored name). */
  lemma StrNCpyName(name: string)
    ensures var r := StrNCpy(name, NameLimit);
      r == StoredName(name) + seq(NameLimit - |StoredName(name)|, _ => '\0') &&
      CStr(r + ['\0']) == StoredName(name)
  {
    var r := StrNCpy(name, NameLimit);
    var s := StoredName(name);
    assert r == s + seq(NameLimit - |s|, _ => '\0');
    if |s| < NameLimit {
      assert r + ['\0'] == s + ['\0'] + (r[|s| + 1..] + ['\0']);
      CStrCut(s, r[|s| + 1..] + ['\0']);
    } else {
      assert r + ['\0'] == s + ['\0'];
      CStrTerminated(s);
      CStrPlain(s);
    }
  }

  /** The truncation warning as the source computes it: it compares the size of a pointer, not the name. */
  function WarnsAsWritten(name: string): bool
  {
    PointerSize > NameLimit
  }

  /** A name longer than the limit is cut, yet the warning as written never fires. */
  lemma TruncationUnreported()
    ensures var name := seq(40, _ => 'a');
      StoredName(name) != CStr(name) && !WarnsAsWritten(name)
  {
    var name := seq(40, _ => 'a');
    CStrPlain(name);
  }

  /** The warning as intended: exactly when the stored name is not the whole name. */
  function Warns(name: string): (w: bool)
    ensures w <==> StoredName(name) != CStr(name)
  {
    |CStr(name)| > NameLimit
  }

  /** The longest name the corrected truncation warning prints, so that it fits multiPrintf's buffer. */
  const WarnNameLimit: nat := 203

  /** The truncation warning printed for the name `s`. */
  function WarningFormat(s: string): string
  {
    "TRUNCATED FILENAME: \"" + s + "\" was longer than 30 characters"
  }

  /** The name the corrected warning prints, "%.203s": bounded to what fits beside the message's 52 characters. */
  function WarningName(s: string): string
  {
    Fitted(s, |WarningFormat("")|)
  }

  /** nextPath after the name is copied in holds "/" and the stored name, which `&nextPath[1]` points at. */
  lemma UploadPath(path: seq<char>, name: string)
    requires path == ['/'] + StrNCpy(name, NameLimit) + ['\0']
    ensures |path| == PathSize
    ensures path[1..PathSize - 1] == StoredName(name) + seq(NameLimit - |StoredName(name)|, _ => '\0')
    ensures CStr(path[1..]) == StoredName(name)
    ensures CStr(path) == "/" + StoredName(name)
  {
    StrNCpyName(name);
    assert path[1..] == StrNCpy(name, NameLimit) + ['\0'];
    assert path[1..PathSize - 1] == StrNCpy(name, NameLimit);
  }

  /** The string `&s[1]` points at, for a path that has a first character. */
  function Rest(s: string): string
  {
    if s == [] then [] else s[1..]
  }

  /** The library's frame dispatch in onWsEvent: only whole single-frame messages are handled. */
  datatype LibAction = LibJson | LibData | LibTooLong(length: nat) | LibIgnore

  function LibDispatch(info: WebServer.FrameInfo, len: nat): (a: LibAction)
    ensures a == LibJson <==> WebServer.WholeText(info, len) && len <= WebServer.MaxJsonLength
    ensures a.LibTooLong? <==> WebServer.WholeText(info, len) && len > WebServer.MaxJsonLength
    ensures a.LibTooLong? ==> a.length == len
    ensures a == LibData <==> info.final && info.index == 0 && info.len == len && info.opcode == WebServer.WsBinary
  {
    if info.final && info.index == 0 && info.len == len then
      if info.opcode == WebServer.WsText then
        if info.len > 250 then LibTooLong(info.len) else LibJson
      else if info.opcode == WebServer.WsBinary then LibData
      else LibIgnore
    else LibIgnore
  }

  /**
   * On a chunk that is a whole single-frame message, the library dispatch
   * and parseReceived agree; the library alone ignores the continuation
   * frames of a fragmented binary message.
   */
  lemma DispatchAgrees(info: WebServer.FrameInfo, len: nat)
    ensures info.final && info.index == 0 && info.len == len && info.opcode != WebServer.WsContinuation ==>
      (LibDispatch(info, len) == LibJson <==> WebServer.ParseReceived(info, len) == WebServer.HandleJson) &&
      (LibDispatch(info, len) == LibData <==> WebServer.ParseReceived(info, len) == WebServer.HandleData) &&
      (LibDispatch(info, len).LibTooLong? <==> WebServer.ParseReceived(info, len).DiscardTooLong?)
    ensures info.opcode == WebServer.WsContinuation && info.messageOpcode == WebServer.WsBinary ==>
      LibDispatch(info, len) == LibIgnore && WebServer.ParseReceived(info, len) == WebServer.HandleData
  {
  }

  /** The library's globals: nextPath, the filesystem, the client and the two outputs. */
  class Server {
    const nextPath: array<char>
    var files: map<string, seq<bv8>>
    var connected: bool
    var acks: seq<Ack>
    var out: seq<Msg>

    /** nextPath keeps its leading slash and its last byte is a terminator. */
    ghost predicate Valid()
      reads this, nextPath
    {
      nextPath.Length == PathSize && nextPath[0] == '/' && nextPath[PathSize - 1] == '\0'
    }

    /** The path nextPath holds. */
    function NextPath(): string
      reads this, nextPath
    {
      CStr(nextPath[..])
    }

    constructor (stored: map<string, seq<bv8>>, client: bool)
      ensures Valid() && fresh(nextPath) && NextPath() == "/"
      ensures files == stored && connected == client && acks == [] && out == []
    {
      nextPath := new char[PathSize](i => if i == 0 then '/' else '\0');
      files, connected, acks, out := stored, client, [], [];
      new;
      CStrAt(nextPath[..], 1);
    }

    /** wsSendAck: sent only while a client is connected. */
    method SendAck(kind: string, status: string, name: string)
      modifies this
      ensures acks == old(acks) + (if connected then [Ack(kind, status, name)] else [])
      ensures files == old(files) && connected == old(connected) && out == old(out)
    {
      if connected {
        acks := acks + [Ack(kind, status, name)];
      }
    }

    /** removeFile: refuse a core path; otherwise remove the file if it exists. */
    method RemoveFile(path: string) returns (removed: bool)
      modifies this
      ensures removed == !IsCore(path)
      ensures removed ==> files == old(files) - {path} && path !in files && out == old(out)
      ensures !removed ==> files == old(files) && out == old(out) + [Illegal(path)]
      ensures connected == old(connected) && acks == old(acks)
    {
      if path in CorePaths {
        out := out + [Illegal(path)];
        return false;
      }
      if path in files {
        files := files - {path};
      }
      return true;
    }

    /**
     * incomingData: store the data under nextPath. A protected nextPath is
     * cut back to "/" and nothing is written; `openOk` is whether SPIFFS
     * opened the file for writing.
     */
    method IncomingData(data: seq<bv8>, openOk: bool)
      requires Valid()
      modifies this, nextPath
      ensures Valid()
      ensures var p := old(NextPath());
        (IsCore(p) ==> NextPath() == "/" && files == old(files) && out == old(out) + [Illegal(p)]) &&
        (!IsCore(p) && openOk ==> files == old(files)[p := data] && out == old(out) + [Uploaded(p, |data|)]) &&
        (!IsCore(p) && !openOk ==> files == old(files) - {p} && out == old(out) + [OpenFailed(p)]) &&
        (!IsCore(p) ==> nextPath[..] == old(nextPath[..]))
      ensures connected == old(connected) && acks == old(acks)
    {
      var path := NextPath();
      var removed := RemoveFile(path);
      if !removed {
        nextPath[1] := '\0';
        CStrAt(nextPath[..], 1);
        return;
      }
      if !openOk {
        out := out + [OpenFailed(path)];
        return;
      }
      files := files[path := data];
      out := out + [Uploaded(path, |data|)];
    }

    /** strncpy(&nextPath[1], name, 30). */
    method CopyName(name: string)
      requires Valid()
      modifies nextPath
      ensures Valid()
      ensures nextPath[..] == ['/'] + StrNCpy(name, NameLimit) + ['\0']
    {
      ghost var c := CStr(name);
      var i := 0;
      while i < NameLimit && i < |name| && name[i] != '\0'
        invariant i <= NameLimit && i <= |c| && c[..i] == name[..i]
        invariant nextPath[0] == '/' && nextPath[PathSize - 1] == '\0'
        invariant nextPath[1..i + 1] == name[..i]
      {
        nextPath[i + 1] := name[i];
        i := i + 1;
      }
      assert i == Min(|c|, NameLimit);
      ghost var k := i;
      while i < NameLimit
        invariant k <= i <= NameLimit
        invariant nextPath[0] == '/' && nextPath[PathSize - 1] == '\0'
        invariant nextPath[1..k + 1] == c[..k]
        invariant forall j :: k < j <= i ==> nextPath[j] == '\0'
      {
        nextPath[i + 1] := '\0';
        i := i + 1;
      }
      assert nextPath[1..PathSize - 1] == StrNCpy(name, NameLimit);
      assert nextPath[..] == [nextPath[0]] + nextPath[1..PathSize - 1] + [nextPath[PathSize - 1]];
    }

    /**
     * The upload branch of incomingJSON: refuse more than 128 bytes; otherwise
     * point nextPath at "/" and the first 30 characters of the name, and
     * acknowledge with the stored name.
     */
    method Upload(size: nat, name: string)
      requires Valid()
      modifies this, nextPath
      ensures Valid()
      ensures size > MaxUpload ==>
        nextPath[..] == old(nextPath[..]) && out == old(out) &&
        acks == old(acks) + (if connected then [Ack("upload", "tooLarge", "")] else [])
      ensures size <= MaxUpload ==>
        NextPath() == "/" + StoredName(name) &&
        nextPath[1..PathSize - 1] == StoredName(name) + seq(NameLimit - |StoredName(name)|, _ => '\0') &&
        acks == old(acks) + (if connected then [Ack("upload", "ready", StoredName(name))] else []) &&
        out == old(out) + (if Warns(name) then [Truncated(WarningName(CStr(name)))] else []) + [Ready("/" + StoredName(name))]
      ensures files == old(files) && connected == old(connected)
    {
      if size > MaxUpload {
        SendAck("upload", "tooLarge", "");
        return;
      }
      if Warns(name) {
        out := out + [Truncated(WarningName(CStr(name)))];
      }
      CopyName(name);
      UploadPath(nextPath[..], name);
      SendAck("upload", "ready", CStr(nextPath[1..]));
      out := out + [Ready(NextPath())];
    }

    /** The delete branch of incomingJSON: acknowledge "ok" iff the file could be removed. */
    method Delete(path: string)
      modifies this
      ensures files == (if IsCore(path) then old(files) else old(files) - {path})
      ensures acks == old(acks) +
        (if connected then [Ack("delete", if IsCore(path) then "protected" else "ok", Rest(path))] else [])
      ensures out == old(out) + (if IsCore(path) then [Illegal(path)] else [Deleted(path)])
      ensures connected == old(connected)
    {
      var removed := RemoveFile(path);
      if removed {
        SendAck("delete", "ok", Rest(path));
        out := out + [Deleted(path)];
      } else {
        SendAck("delete", "protected", Rest(path));
      }
    }
  }

  /** Data that arrives before any accepted upload request is refused: "/" is itself a core path. */
  lemma RootIsCore()
    ensures IsCore("/")
    ensures forall i :: 0 <= i < |CorePaths| ==> |CorePaths[i]| > 0 && CorePaths[i][0] == '/'
  {
  }
}
