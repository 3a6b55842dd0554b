/** The keystroke-script encoder and script library of the USB HID page
    (storage/scripts/nsatt_web/routes/hid_routes.py). A script is plain
    text: each word is typed key by key, and a word in square brackets names
    a special key. The encoder emits a bash script whose `send_key` lines
    write 8-byte keyboard reports to /dev/hidg0; the key numbers are the
    usage IDs of the Keyboard/Keypad page (section 10 of the HID Usage
    Tables 1.12). */
module HidRoutes {
  import opened Strings

  // ---------------------------------------------------------------- key tables

  /** keycode_map: the usage ID typed for a character, shifted characters
      sharing the ID of their unshifted key. */
  function KeyCode(c: char): (r: Option<nat>)
    ensures r.Some? ==> r.value < 256
  {
    if 'a' <= c <= 'z' then Some(0x04 + (c as int - 'a' as int))
    else if 'A' <= c <= 'Z' then Some(0x04 + (c as int - 'A' as int))
    else if '1' <= c <= '9' then Some(0x1e + (c as int - '1' as int))
    else if c == '0' then Some(0x27)
    else if c == ' ' then Some(0x2c)
    else if c == '!' then Some(0x1e)
    else if c == '@' then Some(0x1f)
    else if c == '#' then Some(0x20)
    else if c == '$' then Some(0x21)
    else if c == '%' then Some(0x22)
    else if c == '^' then Some(0x23)
    else if c == '&' then Some(0x24)
    else if c == '*' then Some(0x25)
    else if c == '(' then Some(0x26)
    else if c == ')' then Some(0x27)
    else if c == '_' || c == '-' then Some(0x2d)
    else if c == '+' || c == '=' then Some(0x2e)
    else if c == '{' || c == '[' then Some(0x2f)
    else if c == '}' || c == ']' then Some(0x30)
    else if c == '|' || c == '\\' then Some(0x31)
    else if c == ':' || c == ';' then Some(0x33)
    else if c == '"' || c == '\'' then Some(0x34)
    else if c == '<' || c == ',' then Some(0x36)
    else if c == '>' || c == '.' then Some(0x37)
    else if c == '?' || c == '/' then Some(0x38)
    else None
  }

  /** Upper and lower case letters share one usage ID, 0x04 for a through
      0x1D for z; digits 1..9 are 0x1E..0x26 and 0 is 0x27. */
  lemma LetterCodes(c: char)
    ensures 'a' <= c <= 'z' ==> KeyCode(c) == KeyCode(UpperChar(c)) == Some(0x04 + (c as int - 'a' as int))
    ensures 'a' <= c <= 'z' ==> 0x04 <= KeyCode(c).value <= 0x1D
    ensures '1' <= c <= '9' ==> KeyCode(c) == Some(0x1E + (c as int - '1' as int)) && KeyCode(c).value <= 0x26
    ensures KeyCode('0') == Some(0x27)
  {
  }

  /** special_keys: the usage ID of a bracketed key name. */
  function SpecialCode(name: string): (r: Option<nat>)
    ensures r.Some? ==> r.value < 256
  {
    if name == "Windows" then Some(0xE3)
    else if name == "Enter" then Some(0x28)
    else if name == "Backspace" then Some(0x2A)
    else if name == "Tab" then Some(0x2B)
    else if name == "Esc" then Some(0x29)
    else if name == "Insert" then Some(0x49)
    else if name == "Delete" then Some(0x4C)
    else if name == "Home" then Some(0x4A)
    else if name == "End" then Some(0x4D)
    else if name == "PageUp" then Some(0x4B)
    else if name == "PageDown" then Some(0x4E)
    else if name == "RightArrow" then Some(0x4F)
    else if name == "LeftArrow" then Some(0x50)
    else if name == "DownArrow" then Some(0x51)
    else if name == "UpArrow" then Some(0x52)
    else if name == "F1" then Some(0x3A)
    else if name == "F2" then Some(0x3B)
    else if name == "F3" then Some(0x3C)
    else if name == "F4" then Some(0x3D)
    else if name == "F5" then Some(0x3E)
    else if name == "F6" then Some(0x3F)
    else if name == "F7" then Some(0x40)
    else if name == "F8" then Some(0x41)
    else if name == "F9" then Some(0x42)
    else if name == "F10" then Some(0x43)
    else if name == "F11" then Some(0x44)
    else if name == "F12" then Some(0x45)
    else None
  }

  // ---------------------------------------------------------------- echo -e escapes

  function HexDigit(d: nat): (c: char)
    requires d < 16
    ensures IsHexDigit(c) && HexValue(c) == d
  {
    if d < 10 then ('0' as int + d) as char else ('A' as int + d - 10) as char
  }

  predicate IsHexDigit(c: char) {
    '0' <= c <= '9' || 'A' <= c <= 'F' || 'a' <= c <= 'f'
  }

  function HexValue(c: char): nat
    requires IsHexDigit(c)
  {
    if '0' <= c <= '9' then c as int - '0' as int
    else if 'A' <= c <= 'F' then c as int - 'A' as int + 10
    else c as int - 'a' as int + 10
  }

  /** The `\xHH` text that `echo -e` turns into one byte. */
  function HexEscape(b: nat): (r: string)
    requires b < 256
    ensures |r| == 4 && r[0] == '\\' && r[1] == 'x' && IsHexDigit(r[2]) && IsHexDigit(r[3])
    ensures HexValue(r[2]) * 16 + HexValue(r[3]) == b
  {
    var hi := HexDigit(b / 16);
    var lo := HexDigit(b % 16);
    "\\x" + [hi, lo]
  }

  predicate Bytes(bs: seq<nat>) {
    forall i :: 0 <= i < |bs| ==> bs[i] < 256
  }

  function Escapes(bs: seq<nat>): (r: string)
    requires Bytes(bs)
    ensures |r| == 4 * |bs|
    ensures '\'' !in r
  {
    if bs == [] then [] else HexEscape(bs[0]) + Escapes(bs[1..])
  }

  /** The bytes `echo -e` writes for text made only of `\xHH` escapes. */
  function Unescape(s: string): Option<seq<nat>>
    decreases |s|
  {
    if s == [] then Some([])
    else if |s| >= 4 && s[0] == '\\' && s[1] == 'x' && IsHexDigit(s[2]) && IsHexDigit(s[3]) then
      match Unescape(s[4..])
        case None => None
        case Some(rest) => Some([HexValue(s[2]) * 16 + HexValue(s[3])] + rest)
    else None
  }

  /** Reading the escapes back gives the bytes written. */
  lemma {:induction false} UnescapeEscapes(bs: seq<nat>)
    requires Bytes(bs)
    ensures Unescape(Escapes(bs)) == Some(bs)
    decreases |bs|
  {
    if bs != [] {
      var e := Escapes(bs);
      var h := HexEscape(bs[0]);
      assert e == h + Escapes(bs[1..]);
      assert e[0] == h[0] && e[1] == h[1] && e[2] == h[2] && e[3] == h[3];
      assert e[4..] == Escapes(bs[1..]);
      UnescapeEscapes(bs[1..]);
      assert [bs[0]] + bs[1..] == bs;
    }
  }

  /** The keyboard report pressing one key with no modifier. */
  function Report(code: nat): (r: seq<nat>)
    requires code < 256
    ensures Bytes(r) && |r| == 8 && r[2] == code
  {
    [0, 0, code, 0, 0, 0, 0, 0]
  }

  // ---------------------------------------------------------------- emitted lines

  /** The padding text around the key, as the source spells it. */
  const Pad2: string := "\\x00\\x00"
  const Pad5: string := "\\x00\\x00\\x00\\x00\\x00"

  /** AS WRITTEN: the quoted argument for a character puts the key code
      itself (a raw character) between the escape texts; an unknown
      character gets the escape text `\x00`. */
  function CharArgument(c: char): string {
    Pad2 + (match KeyCode(c) case Some(k) => [k as char] case None => "\\x00") + Pad5
  }

  function CharLine(c: char): string {
    "send_key '" + CharArgument(c) + "'  # " + [c]
  }

  /** AS WRITTEN, the argument of a character line contains an apostrophe,
      which ends bash's single-quoted word early, exactly for the two
      characters of key 0x27: '0' and ')'. */
  lemma CharArgumentBreaksQuote(c: char)
    ensures '\'' in CharArgument(c) <==> c == '0' || c == ')'
  {
    var mid := match KeyCode(c) case Some(k) => [k as char] case None => "\\x00";
    assert CharArgument(c) == Pad2 + mid + Pad5;
    assert '\'' !in Pad2 && '\'' !in Pad5;
    assert '\'' in CharArgument(c) <==> '\'' in mid;
  }

  /** Intended: the whole report written as `\xHH` escapes, so that the
      argument holds no quote and `echo -ne` writes exactly the report. An
      unknown character types usage 0, as before. */
  function CharArgumentFixed(c: char): string {
    Escapes(Report(match KeyCode(c) case Some(k) => k case None => 0))
  }

  /** The fixed argument holds no quote, and `echo -ne` turns it into the
      report for the character's key (usage 0 for an unknown one). */
  lemma CharArgumentFixedTypes(c: char)
    ensures '\'' !in CharArgumentFixed(c)
    ensures Unescape(CharArgumentFixed(c)) == Some(Report(match KeyCode(c) case Some(k) => k case None => 0))
  {
    UnescapeEscapes(Report(match KeyCode(c) case Some(k) => k case None => 0));
  }

  function CharLineFixed(c: char): string {
    "send_key '" + CharArgumentFixed(c) + "'  # " + [c]
  }

  const WindowsLine: string := "send_key '\\xE3' '\\x00'  # Windows Key"

  /** The line for a known bracketed key: like a character line, the key
      code itself (a raw character) between the escape texts. */
  function SpecialLine(name: string, code: nat): (r: string)
    requires code < 256
  {
    if name == "Windows" then WindowsLine
    else "send_key '" + Pad2 + [code as char] + Pad5 + "'  # " + name
  }

  /** `word.startswith("[") and word.endswith("]")` */
  predicate Bracketed(word: string) {
    StartsWith(word, "[") && EndsWith(word, "]")
  }

  /** A bracketed word has the two brackets, so its name is well defined. */
  lemma BracketedLength(word: string)
    requires Bracketed(word)
    ensures |word| >= 2
  {
    assert word[..1] == "[" && word[0] == word[..1][0];
    assert word[|word| - 1..] == "]" && word[|word| - 1] == word[|word| - 1..][0];
  }

  /** The lines one word emits: a bracketed known key gives one line, a
      bracketed unknown name none, and any other word one line per
      character. */
  function WordKeys(word: string): (r: seq<string>)
  {
    if Bracketed(word) then
      BracketedLength(word);
      match SpecialCode(word[1..|word| - 1])
        case Some(code) => [SpecialLine(word[1..|word| - 1], code)]
        case None => []
    else seq(|word|, k requires 0 <= k < |word| => CharLine(word[k]))
  }

  lemma WordKeysCount(word: string)
    ensures !Bracketed(word) ==> (|WordKeys(word)| == |word| &&
      forall k :: 0 <= k < |word| ==> WordKeys(word)[k] == CharLine(word[k]))
    ensures Bracketed(word) ==>
      (|word| >= 2 &&
       match SpecialCode(word[1..|word| - 1])
         case Some(code) => WordKeys(word) == [SpecialLine(word[1..|word| - 1], code)]
         case None => WordKeys(word) == [])
  {
    if Bracketed(word) {
      BracketedLength(word);
    }
  }

  function LineKeys(words: seq<string>): seq<string>
    decreases |words|
  {
    if words == [] then [] else LineKeys(words[..|words| - 1]) + WordKeys(words[|words| - 1])
  }

  lemma {:induction false} LineKeysConcat(a: seq<string>, b: seq<string>)
    ensures LineKeys(a + b) == LineKeys(a) + LineKeys(b)
    decreases |b|
  {
    if b != [] {
      assert (a + b)[..|a + b| - 1] == a + b[..|b| - 1];
      LineKeysConcat(a, b[..|b| - 1]);
    } else {
      assert a + b == a;
    }
  }

  /** Whitespace between two pieces of a line types nothing. */
  lemma SpaceTypesNothing(a: string, c: char, b: string)
    requires IsSpace(c)
    ensures LineKeys(Words(a + [c] + b)) == LineKeys(Words(a)) + LineKeys(Words(b))
  {
    WordsSpaceConcat(a, c, b);
    LineKeysConcat(Words(a), Words(b));
  }

  function ScriptKeys(lines: seq<string>): seq<string>
    decreases |lines|
  {
    if lines == [] then [] else ScriptKeys(lines[..|lines| - 1]) + LineKeys(Words(lines[|lines| - 1]))
  }

  /** The fixed beginning of every converted script. The source writes its
      `\x00` padding inside ordinary string literals, so those are NUL
      characters in the text. */
  const Header: seq<string> := [
    "#!/bin/bash",
    "",
    "LOG_FILE=\"/var/log/keyboard_script.log\"",
    "exec 2>>$LOG_FILE",
    "",
    "DEVICE_PATH=\"/dev/hidg0\"",
    "",
    "send_key() {",
    "    local key=\"$1\"",
    "    echo -ne \"$key\0\0\0\0\0\0\0\" > $DEVICE_PATH 2>>$LOG_FILE",
    "    sleep 0.1",
    "    echo -ne '\0\0\0\0\0\0\0\0' > $DEVICE_PATH 2>>$LOG_FILE",
    "    sleep 0.1",
    "}",
    "",
    "send_combination() {",
    "    local modifier=\"$1\"",
    "    local key=\"$2\"",
    "    echo -ne \"$modifier$key\0\0\0\0\0\" > $DEVICE_PATH 2>>$LOG_FILE",
    "    sleep 0.1",
    "    echo -ne '\0\0\0\0\0\0\0\0' > $DEVICE_PATH 2>>$LOG_FILE",
    "    sleep 0.1",
    "}"]

  /** The converted text: the header, then the key lines, one per line. */
  function ConvertedText(content: string): (r: string)
    ensures StartsWith(r, Join(Header, "\n"))
  {
    var keys := ScriptKeys(SplitLines(content));
    assert StartsWith(Join(Header + keys, "\n"), Join(Header, "\n")) by {
      if keys != [] {
        JoinConcat(Header, keys, "\n");
      } else {
        assert Header + keys == Header;
      }
    }
    Join(Header + keys, "\n")
  }

  datatype Body = Converted(script: string) | Message(text: string) | Error(text: string)
  datatype Reply = Reply(code: int, body: Body)

  /** The lines for one word, built as convert_script's innermost loop
      does. */
  method TypeWord(word: string) returns (keys: seq<string>)
    ensures keys == WordKeys(word)
  {
    keys := [];
    if StartsWith(word, "[") && EndsWith(word, "]") {
      BracketedLength(word);
      var keyName := word[1..|word| - 1];
      var code := SpecialCode(keyName);
      if code.Some? {
        keys := [SpecialLine(keyName, code.value)];
      }
    } else {
      for k := 0 to |word|
        invariant keys == WordKeys(word)[..k]
      {
        assert WordKeys(word)[..k + 1] == WordKeys(word)[..k] + [CharLine(word[k])];
        keys := keys + [CharLine(word[k])];
      }
      assert WordKeys(word)[..|word|] == WordKeys(word);
    }
  }

  /** The lines for the words of one line of the script. */
  method TypeLine(words: seq<string>) returns (keys: seq<string>)
    ensures keys == LineKeys(words)
  {
    keys := [];
    for j := 0 to |words|
      invariant keys == LineKeys(words[..j])
    {
      assert words[..j + 1][..j] == words[..j];
      var more := TypeWord(words[j]);
      keys := keys + more;
    }
    assert words[..|words|] == words;
  }

  /** The lines for every line of the script, in order. */
  method TypeLines(lines: seq<string>) returns (keys: seq<string>)
    ensures keys == ScriptKeys(lines)
  {
    keys := [];
    for i := 0 to |lines|
      invariant keys == ScriptKeys(lines[..i])
    {
      assert lines[..i + 1][..i] == lines[..i];
      var more := TypeLine(Words(lines[i]));
      keys := keys + more;
    }
    assert lines[..|lines|] == lines;
  }

  /** convert_script: empty content is refused; otherwise the header and
      the lines for every word of every line. */
  method ConvertScript(content: string) returns (reply: Reply)
    ensures content == "" ==> reply == Reply(400, Error("No script content provided"))
    ensures content != "" ==> reply == Reply(200, Converted(ConvertedText(content)))
  {
    if content == "" {
      return Reply(400, Error("No script content provided"));
    }
    var keys := TypeLines(SplitLines(content));
    var converted := Header + keys;
    reply := Reply(200, Converted(Join(converted, "\n")));
  }

  // ---------------------------------------------------------------- saved scripts

  /** The `scripts` table: content by unique name. */
  class ScriptLibrary {
    var scripts: map<string, string>

    constructor ()
      ensures scripts == map[]
    {
      scripts := map[];
    }

    /** save_script: blank or missing content is refused; otherwise the
        script is inserted, or its content replaced when the name exists. A
        missing name is `custom_script.sh`. `dbFails` is a database error
        (the connection or the statement raising): the table is unchanged
        and the reply is a 500. */
    method SaveScript(content: Option<string>, name: Option<string>, dbFails: bool) returns (reply: Reply)
      modifies this
      ensures content.None? || Strip(content.value) == "" ==>
        scripts == old(scripts) && reply == Reply(400, Error("No script content provided"))
      ensures content.Some? && Strip(content.value) != "" && dbFails ==>
        scripts == old(scripts) && reply == Reply(500, Error("Failed to save script"))
      ensures content.Some? && Strip(content.value) != "" && !dbFails ==>
        var n := if name.Some? then name.value else "custom_script.sh";
        scripts == old(scripts)[n := content.value] &&
        reply == Reply(200, Message("Script saved as " + n + "."))
    {
      if content.None? || content.value == "" || Strip(content.value) == "" {
        return Reply(400, Error("No script content provided"));
      }
      if dbFails {
        return Reply(500, Error("Failed to save script"));
      }
      var n := if name.Some? then name.value else "custom_script.sh";
      scripts := scripts[n := content.value];
      reply := Reply(200, Message("Script saved as " + n + "."));
    }
  }

  /** Saving twice under one name keeps one entry, with the later content. */
  lemma SaveUpserts(scripts: map<string, string>, n: string, a: string, b: string)
    ensures scripts[n := a][n := b] == scripts[n := b]
    ensures |scripts[n := a].Keys| == |scripts.Keys| + (if n in scripts then 0 else 1)
  {
    if n in scripts {
      assert scripts[n := a].Keys == scripts.Keys;
    } else {
      assert scripts[n := a].Keys == scripts.Keys + {n};
    }
  }
}
