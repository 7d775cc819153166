/** The import lines of a text, as lib/lsp-relay.ts and public/workers/lsp-front-door.js both find them. */
module Headers {
  import opened Wrappers

  /** What `trimStart` strips. */
  predicate IsSpace(c: char) {
    var u := c as int;
    9 <= u <= 13 || u == 32 || u == 0xA0 || u == 0x1680 || 0x2000 <= u <= 0x200A || u == 0x2028 || u == 0x2029
    || u == 0x202F || u == 0x205F || u == 0x3000 || u == 0xFEFF
  }

  function TrimStart(s: string): (t: string)
    ensures |t| <= |s|
  {
    if s != "" && IsSpace(s[0]) then TrimStart(s[1..]) else s
  }

  /** `s` past `word` and the whitespace that must follow it. */
  function AfterWord(s: string, word: string): Option<string> {
    if word <= s && |TrimStart(s[|word|..])| < |s[|word|..]| then Some(TrimStart(s[|word|..])) else None
  }

  function Or(a: Option<string>, b: string): string {
    if a.Some? then a.value else b
  }

  predicate IsImport(line: string) {
    var s := TrimStart(line);
    var t := Or(AfterWord(s, "public"), Or(AfterWord(s, "private"), s));
    AfterWord(Or(AfterWord(t, "meta"), t), "import").Some?
  }

  function LineEnd(s: string): (i: nat)
    ensures i <= |s|
  {
    if s == "" || s[0] == '\n' then 0 else 1 + LineEnd(s[1..])
  }

  /** `linesOf`. */
  function LinesOf(text: string): seq<string>
    decreases |text|
  {
    var i := LineEnd(text);
    [text[..i]] + (if i < |text| then LinesOf(text[i + 1..]) else [])
  }

  function ImportsOf(lines: seq<string>): seq<string> {
    if lines == [] then [] else (if IsImport(lines[0]) then [lines[0]] else []) + ImportsOf(lines[1..])
  }

  function Join(lines: seq<string>): string {
    if lines == [] then "" else if |lines| == 1 then lines[0] else lines[0] + "\n" + Join(lines[1..])
  }

  /** `headerOf`: the import lines of a text. */
  function HeaderOf(text: string): string {
    Join(ImportsOf(LinesOf(text)))
  }

  /** `importLinesOf`: which lines, from the n-th on, hold an import. */
  function ImportsFrom(lines: seq<string>, n: nat): set<nat> {
    if lines == [] then {} else (if IsImport(lines[0]) then {n} else {}) + ImportsFrom(lines[1..], n + 1)
  }

  function ImportLines(text: string): set<nat> {
    ImportsFrom(LinesOf(text), 0)
  }
}
