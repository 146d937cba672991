/** The configuration file (src/camconf.cc): what its lines say, and edits of one
    line that change one answer and nothing else. */
module CamConf {
  import opened Wrappers

  // ------------------------------------------------------------------- words

  predicate Blank(c: char) {
    c == ' ' || c == '\t'
  }

  /** What separates words. */
  predicate Space(c: char) {
    c == ' ' || 9 <= c as int <= 13
  }

  predicate AllSpace(s: string) {
    forall i :: 0 <= i < |s| ==> Space(s[i])
  }

  predicate NoSpace(s: string) {
    forall i :: 0 <= i < |s| ==> !Space(s[i])
  }

  function TrimLeft(s: string): (r: string)
    ensures |r| <= |s|
  {
    if s != "" && Blank(s[0]) then TrimLeft(s[1..]) else s
  }

  function TrimRight(s: string): (r: string)
    ensures |r| <= |s| && r == s[..|r|] && AllSpace(s[|r|..])
    ensures r == "" || !(Blank(r[|r| - 1]) || r[|r| - 1] == '\r')
  {
    if s != "" && (Blank(s[|s| - 1]) || s[|s| - 1] == '\r') then
      var r := TrimRight(s[..|s| - 1]);
      assert s[|r|..] == s[..|s| - 1][|r|..] + [s[|s| - 1]];
      r
    else s
  }

  function Trim(s: string): string {
    TrimRight(TrimLeft(s))
  }

  /** Where the first blank is. */
  function FirstBlank(t: string): (n: nat)
    ensures n <= |t| && (n < |t| ==> Blank(t[n])) && forall i :: 0 <= i < n ==> !Blank(t[i])
  {
    if t == "" || Blank(t[0]) then 0 else 1 + FirstBlank(t[1..])
  }

  function Verb(t: string): string {
    t[..FirstBlank(t)]
  }

  function Rest(t: string): string {
    if FirstBlank(t) == |t| then "" else t[FirstBlank(t) + 1..]
  }

  function TokenEnd(s: string): (n: nat)
    ensures n <= |s| && (n < |s| ==> Space(s[n])) && NoSpace(s[..n])
  {
    if s == "" || Space(s[0]) then 0
    else
      var n := TokenEnd(s[1..]);
      assert s[..n + 1] == [s[0]] + s[1..][..n];
      n + 1
  }

  function Tokens(s: string): (ts: seq<string>)
    decreases |s|
  {
    if s == "" then []
    else if Space(s[0]) then Tokens(s[1..])
    else [s[..TokenEnd(s)]] + Tokens(s[TokenEnd(s)..])
  }

  datatype Field = Field(key: string, value: string)

  function Equals(tok: string): (n: nat)
    ensures n <= |tok| && (n < |tok| ==> tok[n] == '=') && forall i :: 0 <= i < n ==> tok[i] != '='
  {
    if tok == "" || tok[0] == '=' then 0 else 1 + Equals(tok[1..])
  }

  function FieldOf(tok: string): Field {
    var n := Equals(tok);
    if n == |tok| then Field(tok, "") else Field(tok[..n], tok[n + 1..])
  }

  function FieldsOf(ts: seq<string>): (fs: seq<Field>)
    ensures |fs| == |ts|
  {
    if ts == [] then [] else [FieldOf(ts[0])] + FieldsOf(ts[1..])
  }

  function Fields(rest: string): seq<Field> {
    FieldsOf(Tokens(rest))
  }

  /** A device is named by the first word, or by what that word sets. */
  function Ident(f: Field): string {
    if f.value == "" then f.key else f.value
  }

  // ------------------------------------------------------------------ meaning

  function Lower(c: char): char {
    if 'A' <= c <= 'Z' then (c as int + 32) as char else c
  }

  function LowerAll(s: string): string {
    if s == "" then "" else [Lower(s[0])] + LowerAll(s[1..])
  }

  function ParseBool(raw: string): Option<bool> {
    var v := LowerAll(raw);
    if v == "on" || v == "true" || v == "yes" || v == "1" || v == "enabled" then Some(true)
    else if v == "off" || v == "false" || v == "no" || v == "0" || v == "disabled" then Some(false)
    else None
  }

  function Switch(on: bool): string {
    if on then "on" else "off"
  }

  datatype Kind = Camera | Box

  /** The flag of its own that a kind of device has, or the warning. */
  datatype Flag = Own | Warn

  function VerbOf(k: Kind): string {
    if k == Camera then "camera" else "box"
  }

  function KeyOf(k: Kind, f: Flag): string {
    if f == Warn then "warn" else if k == Camera then "writes" else "enabled"
  }

  datatype Device = Device(id: string, name: string, own: bool, warn: bool)

  datatype Defaults = Defaults(writes: bool, enabled: bool, warn: bool)

  const OUT_OF_THE_BOX := Defaults(false, true, false)

  function OwnDefault(d: Defaults, k: Kind): bool {
    if k == Camera then d.writes else d.enabled
  }

  function Put(v: Device, f: Flag, on: bool): Device {
    if f == Own then v.(own := on) else v.(warn := on)
  }

  /** One word of a device line; unknown words are left alone. */
  function Learn(k: Kind, v: Device, f: Field): Option<Device> {
    if f.key == KeyOf(k, Own) then
      if ParseBool(f.value).None? then None else Some(v.(own := ParseBool(f.value).value))
    else if f.key == "warn" then
      if ParseBool(f.value).None? then None else Some(v.(warn := ParseBool(f.value).value))
    else if f.key == "name" then Some(v.(name := f.value))
    else Some(v)
  }

  function LearnAll(k: Kind, v: Device, fs: seq<Field>): Option<Device>
    decreases |fs|
  {
    if fs == [] then Some(v)
    else if Learn(k, v, fs[0]).None? then None
    else LearnAll(k, Learn(k, v, fs[0]).value, fs[1..])
  }

  function Default(d: Defaults, f: Field): Option<Defaults> {
    if f.key == "writes" || f.key == "enabled" || f.key == "warn" then
      var b := ParseBool(f.value);
      if b.None? then None
      else if f.key == "writes" then Some(d.(writes := b.value))
      else if f.key == "enabled" then Some(d.(enabled := b.value))
      else Some(d.(warn := b.value))
    else Some(d)
  }

  function DefaultAll(d: Defaults, fs: seq<Field>): Option<Defaults>
    decreases |fs|
  {
    if fs == [] then Some(d)
    else if Default(d, fs[0]).None? then None
    else DefaultAll(Default(d, fs[0]).value, fs[1..])
  }

  /** What a line says. */
  datatype Said = Nothing | Wrong | Now(defaults: Defaults) | Has(kind: Kind, device: Device)

  predicate Silent(t: string) {
    t == "" || t[0] == '#'
  }

  function SayDevice(d: Defaults, k: Kind, fs: seq<Field>): Said {
    if fs == [] then Wrong
    else
      var v := LearnAll(k, Device(Ident(fs[0]), "", OwnDefault(d, k), d.warn), fs[1..]);
      if v.None? then Wrong else Has(k, v.value)
  }

  function Say(d: Defaults, line: string): Said {
    var t := Trim(line);
    if Silent(t) then Nothing
    else if Verb(t) == "default" then
      var d' := DefaultAll(d, Fields(Rest(t)));
      if d'.None? then Wrong else Now(d'.value)
    else if Verb(t) == "camera" then SayDevice(d, Camera, Fields(Rest(t)))
    else if Verb(t) == "box" then SayDevice(d, Box, Fields(Rest(t)))
    else Nothing
  }

  datatype Conf = Conf(defaults: Defaults, cameras: seq<Device>, boxes: seq<Device>)

  function Devices(c: Conf, k: Kind): seq<Device> {
    if k == Camera then c.cameras else c.boxes
  }

  function WithDevices(c: Conf, k: Kind, vs: seq<Device>): Conf {
    if k == Camera then c.(cameras := vs) else c.(boxes := vs)
  }

  /** What the lines say, each under the defaults in force where it stands. */
  function Parse(d: Defaults, lines: seq<string>): Option<Conf>
    decreases |lines|
  {
    if lines == [] then Some(Conf(d, [], []))
    else
      match Say(d, lines[0])
      case Wrong => None
      case Nothing => Parse(d, lines[1..])
      case Now(d') => Parse(d', lines[1..])
      case Has(k, v) =>
        var rest := Parse(d, lines[1..]);
        if rest.None? then None else Some(WithDevices(rest.value, k, [v] + Devices(rest.value, k)))
  }

  // ------------------------------------------------------------------- edits

  /** Switch a flag of a device, and name the device if a name is given. */
  datatype Edit = Edit(kind: Kind, flag: Flag, id: string, name: string, on: bool)

  predicate Printing(c: char) {
    0x20 < c as int < 0x7f && c != '='
  }

  function SafeLabel(name: string): (r: string)
    ensures |r| == |name| && forall i :: 0 <= i < |r| ==> Printing(r[i])
  {
    if name == "" then "" else [if Printing(name[0]) then name[0] else '_'] + SafeLabel(name[1..])
  }

  /** The line is about the device. */
  predicate Names(line: string, k: Kind, id: string) {
    var t := Trim(line);
    && !Silent(t) && Verb(t) == VerbOf(k)
    && Fields(Rest(t)) != [] && Ident(Fields(Rest(t))[0]) == id
  }

  function WordOf(f: Field): string {
    f.key + if f.value == "" then "" else "=" + f.value
  }

  function FlagWord(e: Edit): string {
    KeyOf(e.kind, e.flag) + "=" + Switch(e.on)
  }

  function NameWord(name: string): string {
    "name=" + name
  }

  /** A word as the rewritten line has it. */
  function NewWord(e: Edit, f: Field): string {
    if f.key == KeyOf(e.kind, e.flag) then FlagWord(e)
    else if f.key == "name" then NameWord(if e.name == "" then f.value else SafeLabel(e.name))
    else WordOf(f)
  }

  function NewWords(e: Edit, fs: seq<Field>): (ws: seq<string>)
    ensures |ws| == |fs|
  {
    if fs == [] then [] else [NewWord(e, fs[0])] + NewWords(e, fs[1..])
  }

  predicate HasKey(fs: seq<Field>, key: string) {
    exists i :: 0 <= i < |fs| && fs[i].key == key
  }

  /** What the line did not have yet. */
  function MoreWords(e: Edit, fs: seq<Field>): seq<string> {
    (if HasKey(fs, KeyOf(e.kind, e.flag)) then [] else [FlagWord(e)])
    + (if HasKey(fs, "name") || e.name == "" then [] else [NameWord(SafeLabel(e.name))])
  }

  function Spaced(ws: seq<string>): string {
    if ws == [] then "" else " " + ws[0] + Spaced(ws[1..])
  }

  function Rebuilt(e: Edit, fs: seq<Field>): string
    requires fs != []
  {
    VerbOf(e.kind) + Spaced([Ident(fs[0])] + (NewWords(e, fs[1..]) + MoreWords(e, fs[1..])))
  }

  function Rebuild(e: Edit, line: string): string {
    var fs := Fields(Rest(Trim(line)));
    if fs == [] then line else Rebuilt(e, fs)
  }

  function Added(e: Edit): string {
    VerbOf(e.kind) + Spaced([e.id, FlagWord(e)] + if e.name == "" then [] else [NameWord(SafeLabel(e.name))])
  }

  /** The first line about the device is rewritten; if there is none, one is added. */
  function SetLines(e: Edit, lines: seq<string>): seq<string> {
    if lines == [] then [Added(e)]
    else if Names(lines[0], e.kind, e.id) then [Rebuild(e, lines[0])] + lines[1..]
    else [lines[0]] + SetLines(e, lines[1..])
  }

  function ForgetLines(k: Kind, id: string, lines: seq<string>): seq<string> {
    if lines == [] then []
    else (if Names(lines[0], k, id) then [] else [lines[0]]) + ForgetLines(k, id, lines[1..])
  }

  // ------------------------------------------------- what an edit should mean

  function Edited(v: Device, e: Edit): Device {
    Put(if e.name == "" then v else v.(name := SafeLabel(e.name)), e.flag, e.on)
  }

  function EditDevices(vs: seq<Device>, e: Edit, d: Defaults): seq<Device> {
    if vs == [] then [Edited(Device(e.id, "", OwnDefault(d, e.kind), d.warn), e)]
    else if vs[0].id == e.id then [Edited(vs[0], e)] + vs[1..]
    else [vs[0]] + EditDevices(vs[1..], e, d)
  }

  function EditConf(c: Conf, e: Edit): Conf {
    WithDevices(c, e.kind, EditDevices(Devices(c, e.kind), e, c.defaults))
  }

  function Without(vs: seq<Device>, id: string): seq<Device> {
    if vs == [] then [] else (if vs[0].id == id then [] else [vs[0]]) + Without(vs[1..], id)
  }

  function ForgetConf(c: Conf, k: Kind, id: string): Conf {
    WithDevices(c, k, Without(Devices(c, k), id))
  }

  /** An id that a line can hold. */
  predicate Plain(id: string) {
    id != "" && NoSpace(id) && '=' !in id
  }

  // ---------------------------------------------------------------- the words

  lemma {:induction false} TokenEndPast(a: string, b: string)
    requires NoSpace(a) && (b == "" || Space(b[0]))
    ensures TokenEnd(a + b) == |a|
  {
    if a == "" {
      assert a + b == b;
    } else {
      assert (a + b)[1..] == a[1..] + b;
      TokenEndPast(a[1..], b);
    }
  }

  lemma {:induction false} TokensTrail(a: string, b: string)
    requires AllSpace(b)
    ensures Tokens(a + b) == Tokens(a)
    decreases |a|, |b|
  {
    if a == "" {
      assert a + b == b;
      if b != "" {
        assert "" + b[1..] == b[1..];
        TokensTrail("", b[1..]);
      }
    } else if Space(a[0]) {
      assert (a + b)[1..] == a[1..] + b;
      TokensTrail(a[1..], b);
    } else {
      var n := TokenEnd(a);
      assert a == a[..n] + a[n..] && a + b == a[..n] + (a[n..] + b);
      TokenEndPast(a[..n], a[n..] + b);
      assert (a + b)[..n] == a[..n] && (a + b)[n..] == a[n..] + b;
      assert n > 0;
      TokensTrail(a[n..], b);
    }
  }

  lemma WordFirst(w: string, more: string)
    requires w != "" && NoSpace(w) && (more == "" || Space(more[0]))
    ensures Tokens(" " + w + more) == [w] + Tokens(more)
  {
    var s := w + more;
    assert (" " + w + more)[1..] == s;
    TokenEndPast(w, more);
    assert s[..|w|] == w && s[|w|..] == more && s[0] == w[0];
  }

  function Full(ws: seq<string>): seq<string> {
    if ws == [] then [] else (if ws[0] == "" then [] else [ws[0]]) + Full(ws[1..])
  }

  predicate AllNoSpace(ws: seq<string>) {
    forall i :: 0 <= i < |ws| ==> NoSpace(ws[i])
  }

  /** Words with a space before each are read back, but for the empty ones. */
  lemma {:induction false} TokensSpaced(ws: seq<string>)
    requires AllNoSpace(ws)
    ensures Tokens(Spaced(ws)) == Full(ws)
  {
    if ws != [] {
      TokensSpaced(ws[1..]);
      var more := Spaced(ws[1..]);
      if ws[0] == "" {
        assert Spaced(ws)[1..] == more;
      } else {
        WordFirst(ws[0], more);
      }
    }
  }

  /** Trimming takes nothing but space off the end of a line of words. */
  lemma TrimmedLine(line: string, kept: nat)
    requires 0 < kept <= |line| && !Space(line[0]) && !Space(line[kept - 1])
    ensures var t := Trim(line); kept <= |t| <= |line| && t == line[..|t|] && AllSpace(line[|t|..])
  {
    assert TrimLeft(line) == line;
    var m := |TrimRight(line)|;
    if m < kept {
      SpaceWithin(line, m, kept - 1);
    }
  }

  lemma SpaceWithin(line: string, m: nat, i: nat)
    requires m <= i < |line| && AllSpace(line[m..])
    ensures Space(line[i])
  {
    assert line[m..][i - m] == line[i];
  }

  lemma LineOfWords(verb: string, first: string, tail: string)
    requires verb != "" && NoSpace(verb) && verb[0] != '#' && first != "" && !Space(first[|first| - 1])
    ensures var t := Trim(verb + " " + first + tail);
            !Silent(t) && Verb(t) == verb && Tokens(Rest(t)) == Tokens(" " + first + tail)
  {
    hide Trim, Verb, Rest, Tokens, TrimLeft, TrimRight;
    var more := first + tail;
    var line := verb + " " + first + tail;
    var head := |verb| + 1;
    assert line[0] == verb[0] && line[head + |first| - 1] == first[|first| - 1];
    TrimmedLine(line, head + |first|);
    var m := |Trim(line)|;
    assert line[head..] == more;
    assert line[..m] == verb + " " + more[..m - head];
    assert line[m..] == more[m - head..];
    VerbAnd(verb, more[..m - head]);
    TokensTrail(more[..m - head], more[m - head..]);
    assert more[..m - head] + more[m - head..] == more;
    SkipSpace(more);
    assert " " + more == " " + first + tail;
  }

  /** A line made of a verb and words says them. */
  lemma LineWords(verb: string, ws: seq<string>)
    requires verb != "" && NoSpace(verb) && verb[0] != '#'
    requires ws != [] && ws[0] != "" && AllNoSpace(ws)
    ensures var t := Trim(verb + Spaced(ws)); !Silent(t) && Verb(t) == verb && Fields(Rest(t)) == FieldsOf(Full(ws))
  {
    hide Trim, Verb, Rest, Tokens, Full, FieldsOf, Spaced, NoSpace;
    LastOf(ws[0]);
    LineOfWords(verb, ws[0], Spaced(ws[1..]));
    TokensSpaced(ws);
    SpacedFirst(verb, ws);
  }

  lemma LastOf(w: string)
    requires w != "" && NoSpace(w)
    ensures !Space(w[|w| - 1])
  {
  }

  lemma SpacedFirst(verb: string, ws: seq<string>)
    requires ws != []
    ensures Spaced(ws) == " " + ws[0] + Spaced(ws[1..])
    ensures verb + Spaced(ws) == verb + " " + ws[0] + Spaced(ws[1..])
  {
    hide Spaced;
    assert Spaced(ws) == " " + ws[0] + Spaced(ws[1..]) by { SpacedIs(ws); }
  }

  lemma SpacedIs(ws: seq<string>)
    requires ws != []
    ensures Spaced(ws) == " " + ws[0] + Spaced(ws[1..])
  {
  }

  lemma SkipSpace(s: string)
    ensures Tokens(" " + s) == Tokens(s)
  {
    assert (" " + s)[1..] == s;
  }

  lemma VerbAnd(verb: string, more: string)
    requires NoSpace(verb)
    ensures var t := verb + " " + more; Verb(t) == verb && Rest(t) == more
  {
    FirstBlankPast(verb, " " + more);
    assert (verb + " " + more) == verb + (" " + more);
    assert (verb + (" " + more))[|verb| + 1..] == more;
  }

  lemma {:induction false} FirstBlankPast(a: string, b: string)
    requires NoSpace(a) && b != "" && Blank(b[0])
    ensures FirstBlank(a + b) == |a|
  {
    if a == "" {
      assert a + b == b;
    } else {
      assert (a + b)[1..] == a[1..] + b;
      assert !Space(a[0]);
      FirstBlankPast(a[1..], b);
    }
  }

  // ----------------------------------------------------------- words as fields

  lemma {:induction false} EqualsPast(a: string, b: string)
    requires '=' !in a
    ensures Equals(a + b) == |a| + Equals(b)
  {
    if a == "" {
      assert a + b == b;
    } else {
      assert (a + b)[1..] == a[1..] + b;
      EqualsPast(a[1..], b);
    }
  }

  lemma FieldOfPair(key: string, value: string)
    requires '=' !in key
    ensures FieldOf(key + "=" + value) == Field(key, value)
  {
    EqualsPast(key, "=" + value);
    assert key + "=" + value == key + ("=" + value);
    assert (key + ("=" + value))[|key| + 1..] == value;
  }

  lemma FieldOfKey(key: string)
    requires '=' !in key
    ensures FieldOf(key) == Field(key, "")
  {
    EqualsPast(key, "");
    assert key + "" == key;
  }

  /** A field as it comes out of a token. */
  predicate Sound(f: Field) {
    '=' !in f.key && NoSpace(f.key) && NoSpace(f.value)
  }

  lemma FieldOfWord(f: Field)
    requires Sound(f)
    ensures FieldOf(WordOf(f)) == f && NoSpace(WordOf(f))
  {
    if f.value == "" {
      FieldOfKey(f.key);
      assert f.key + "" == f.key;
    } else {
      FieldOfPair(f.key, f.value);
      assert f.key + "=" + f.value == f.key + ("=" + f.value);
    }
  }

  lemma TokenSound(tok: string)
    requires NoSpace(tok)
    ensures Sound(FieldOf(tok))
  {
  }

  ghost predicate AllSound(fs: seq<Field>) {
    forall i :: 0 <= i < |fs| ==> Sound(fs[i])
  }

  lemma {:induction false} FieldsSound(s: string)
    ensures AllSound(Fields(s))
    decreases |s|
  {
    if s != "" {
      if Space(s[0]) {
        FieldsSound(s[1..]);
      } else {
        var n := TokenEnd(s);
        assert n > 0;
        FieldsSound(s[n..]);
        TokenSound(s[..n]);
      }
    }
  }

  lemma KeysAre(e: Edit)
    ensures var key := KeyOf(e.kind, e.flag); '=' !in key && NoSpace(key) && key != "" && key != "name"
    ensures NoSpace(Switch(e.on)) && ParseBool(Switch(e.on)) == Some(e.on)
  {
    assert LowerAll("on") == "on" && LowerAll("off") == "off";
  }

  lemma FlagWordIs(e: Edit)
    ensures FieldOf(FlagWord(e)) == Field(KeyOf(e.kind, e.flag), Switch(e.on)) && NoSpace(FlagWord(e))
            && FlagWord(e) != ""
  {
    KeysAre(e);
    FieldOfPair(KeyOf(e.kind, e.flag), Switch(e.on));
  }

  lemma NameWordIs(name: string)
    requires NoSpace(name)
    ensures FieldOf(NameWord(name)) == Field("name", name) && NoSpace(NameWord(name)) && NameWord(name) != ""
  {
    assert "name" + "=" == "name=";
    FieldOfPair("name", name);
    assert NoSpace("name=") && NameWord(name) == "name=" + name;
    NoSpaceBoth("name=", name);
  }

  lemma NoSpaceBoth(a: string, b: string)
    requires NoSpace(a) && NoSpace(b)
    ensures NoSpace(a + b)
  {
  }

  lemma LabelIsPlain(name: string)
    ensures NoSpace(SafeLabel(name))
  {
  }

  /** The field a rewritten word is read back as. */
  function NewField(e: Edit, f: Field): Field {
    if f.key == KeyOf(e.kind, e.flag) then Field(f.key, Switch(e.on))
    else if f.key == "name" then Field(f.key, if e.name == "" then f.value else SafeLabel(e.name))
    else f
  }

  lemma NewWordIs(e: Edit, f: Field)
    requires Sound(f)
    ensures FieldOf(NewWord(e, f)) == NewField(e, f) && NoSpace(NewWord(e, f))
    ensures NewWord(e, f) == "" ==> f == Field("", "")
  {
    FlagWordIs(e);
    LabelIsPlain(e.name);
    NameWordIs(if e.name == "" then f.value else SafeLabel(e.name));
    FieldOfWord(f);
  }

  // --------------------------------------------------- what a rewrite changes

  /** A device as the words rewritten so far have made it. */
  function Masked(v: Device, e: Edit, flagged: bool, named: bool): Device {
    var n := if named && e.name != "" then v.(name := SafeLabel(e.name)) else v;
    if flagged then Put(n, e.flag, e.on) else n
  }

  lemma LearnMasked(e: Edit, v: Device, f: Field, flagged: bool, named: bool)
    requires Learn(e.kind, v, f).Some?
    ensures Learn(e.kind, Masked(v, e, flagged, named), NewField(e, f)) ==
            Some(Masked(Learn(e.kind, v, f).value, e, flagged || f.key == KeyOf(e.kind, e.flag),
                        named || f.key == "name"))
  {
    KeysAre(e);
  }

  lemma HasKeyFirst(fs: seq<Field>, key: string)
    requires fs != []
    ensures HasKey(fs, key) == (fs[0].key == key || HasKey(fs[1..], key))
  {
    if fs[0].key != key && HasKey(fs, key) {
      var i :| 0 <= i < |fs| && fs[i].key == key;
      assert fs[1..][i - 1].key == key;
    }
    if HasKey(fs[1..], key) {
      var i :| 0 <= i < |fs[1..]| && fs[1..][i].key == key;
      assert fs[i + 1].key == key;
    }
  }

  lemma LearnNothing(k: Kind, v: Device)
    ensures Learn(k, v, Field("", "")) == Some(v)
  {
  }

  /** Reading the rewritten words gives what the old words gave, but for the flag
      and the name. */
  lemma {:induction false} LearnRewritten(e: Edit, v: Device, fs: seq<Field>, more: seq<string>, flagged: bool,
                                          named: bool)
    requires AllSound(fs) && LearnAll(e.kind, v, fs).Some?
    ensures LearnAll(e.kind, Masked(v, e, flagged, named), FieldsOf(Full(NewWords(e, fs) + more))) ==
            LearnAll(e.kind,
                     Masked(LearnAll(e.kind, v, fs).value, e, flagged || HasKey(fs, KeyOf(e.kind, e.flag)), named
                            || HasKey(fs, "name")),
                     FieldsOf(Full(more)))
    decreases |fs|
  {
    hide Learn, Masked, NewWord, NewField, HasKey, FieldOf, KeyOf;
    if fs == [] {
      assert NewWords(e, fs) + more == more;
      NoKeys(KeyOf(e.kind, e.flag));
      NoKeys("name");
    } else {
      var f := fs[0];
      var v' := Learn(e.kind, v, f).value;
      var flagged' := flagged || f.key == KeyOf(e.kind, e.flag);
      var named' := named || f.key == "name";
      assert (NewWords(e, fs) + more)[1..] == NewWords(e, fs[1..]) + more;
      assert Sound(f);
      NewWordIs(e, f);
      LearnMasked(e, v, f, flagged, named);
      HasKeyFirst(fs, KeyOf(e.kind, e.flag));
      HasKeyFirst(fs, "name");
      LearnRewritten(e, v', fs[1..], more, flagged', named');
      assert NewWords(e, fs) + more == [NewWord(e, f)] + (NewWords(e, fs[1..]) + more);
      if NewWord(e, f) == "" {
        LearnNothing(e.kind, v);
        LearnNothing(e.kind, Masked(v, e, flagged, named));
        EmptyNew(e);
        FullSkip(NewWords(e, fs[1..]) + more);
      } else {
        FullFirst(NewWord(e, f), NewWords(e, fs[1..]) + more);
        LearnFirst(e.kind, Masked(v, e, flagged, named), NewField(e, f), FieldsOf(Full(NewWords(e, fs[1..]) + more)));
      }
    }
  }

  lemma NoKeys(key: string)
    ensures !HasKey([], key)
  {
  }

  lemma EmptyNew(e: Edit)
    ensures NewField(e, Field("", "")) == Field("", "")
  {
    KeysAre(e);
  }

  lemma FullSkip(ws: seq<string>)
    ensures Full([""] + ws) == Full(ws)
  {
    assert ([""] + ws)[1..] == ws;
  }

  lemma LearnFirst(k: Kind, v: Device, f: Field, fs: seq<Field>)
    requires Learn(k, v, f).Some?
    ensures LearnAll(k, v, [f] + fs) == LearnAll(k, Learn(k, v, f).value, fs)
  {
    assert ([f] + fs)[1..] == fs;
  }

  lemma FullFirst(w: string, ws: seq<string>)
    requires w != ""
    ensures FieldsOf(Full([w] + ws)) == [FieldOf(w)] + FieldsOf(Full(ws))
  {
    assert ([w] + ws)[1..] == ws;
    assert ([w] + Full(ws))[1..] == Full(ws);
  }

  /** The words a line lacked complete the edit. */
  lemma LearnMore(e: Edit, v: Device, fs: seq<Field>)
    ensures LearnAll(e.kind, Masked(v, e, HasKey(fs, KeyOf(e.kind, e.flag)), HasKey(fs, "name")),
                     FieldsOf(Full(MoreWords(e, fs)))) ==
            Some(Edited(v, e))
  {
    hide HasKey, SafeLabel, Full, FieldsOf, LearnAll, FlagWord, NameWord, Learn;
    FlagWordIs(e);
    LabelIsPlain(e.name);
    NameWordIs(SafeLabel(e.name));
    KeysAre(e);
    var a := if HasKey(fs, KeyOf(e.kind, e.flag)) then [] else [FlagWord(e)];
    var b := if HasKey(fs, "name") || e.name == "" then [] else [NameWord(SafeLabel(e.name))];
    FullTwo(a, b);
    var m := Masked(v, e, HasKey(fs, KeyOf(e.kind, e.flag)), HasKey(fs, "name"));
    LearnTwo(e, m, a != [], b != []);
  }

  lemma LearnTwo(e: Edit, v: Device, flag: bool, name: bool)
    ensures var a := if flag then [Field(KeyOf(e.kind, e.flag), Switch(e.on))] else [];
            var b := if name then [Field("name", SafeLabel(e.name))] else [];
            var v' := if flag then Put(v, e.flag, e.on) else v;
            LearnAll(e.kind, v, a + b) == Some(if name then v'.(name := SafeLabel(e.name)) else v')
  {
    hide SafeLabel, ParseBool;
    KeysAre(e);
    var f, n := Field(KeyOf(e.kind, e.flag), Switch(e.on)), Field("name", SafeLabel(e.name));
    var b := if name then [n] else [];
    var v' := if flag then Put(v, e.flag, e.on) else v;
    if name {
      LearnFirst(e.kind, v', n, []);
      assert [n] + [] == [n];
    }
    if flag {
      assert Learn(e.kind, v, f) == Some(v');
      LearnFirst(e.kind, v, f, b);
    } else {
      assert [] + b == b;
    }
  }

  lemma FullTwo(a: seq<string>, b: seq<string>)
    requires |a| <= 1 && |b| <= 1 && (forall i :: 0 <= i < |a| ==> a[i] != "")
             && (forall i :: 0 <= i < |b| ==> b[i] != "")
    ensures FieldsOf(Full(a + b)) == (if a == [] then [] else [FieldOf(a[0])])
                                     + (if b == [] then [] else [FieldOf(b[0])])
  {
    if a == [] {
      assert a + b == b;
      if b != [] {
        assert b == [b[0]] + [];
        FullFirst(b[0], []);
      }
    } else {
      assert a + b == [a[0]] + b;
      FullFirst(a[0], b);
      if b != [] {
        assert b == [b[0]] + [];
        FullFirst(b[0], []);
      }
    }
  }

  // ------------------------------------------------------------ edits refined

  lemma VerbsAre(k: Kind)
    ensures VerbOf(k) != "" && NoSpace(VerbOf(k)) && VerbOf(k)[0] != '#' && VerbOf(k) != "default"
    ensures VerbOf(Camera) != VerbOf(Box)
  {
  }

  lemma PlainIsSound(id: string)
    requires Plain(id)
    ensures FieldOf(id) == Field(id, "") && Ident(FieldOf(id)) == id && NoSpace(id)
  {
    FieldOfKey(id);
  }

  lemma WordsNoSpace(e: Edit, fs: seq<Field>, tail: seq<Field>)
    requires AllSound(fs) && Plain(e.id)
    ensures AllNoSpace([e.id] + (NewWords(e, fs) + MoreWords(e, tail)))
  {
    hide NewWords, MoreWords;
    NewWordsNoSpace(e, fs);
    MoreWordsNoSpace(e, tail);
  }

  lemma {:induction false} NewWordsNoSpace(e: Edit, fs: seq<Field>)
    requires AllSound(fs)
    ensures forall i :: 0 <= i < |fs| ==> NoSpace(NewWords(e, fs)[i])
  {
    if fs != [] {
      assert Sound(fs[0]);
      NewWordIs(e, fs[0]);
      NewWordsNoSpace(e, fs[1..]);
    }
  }

  lemma MoreWordsNoSpace(e: Edit, fs: seq<Field>)
    ensures forall i :: 0 <= i < |MoreWords(e, fs)| ==> NoSpace(MoreWords(e, fs)[i])
  {
    hide HasKey, SafeLabel, FlagWord, NameWord;
    FlagWordIs(e);
    LabelIsPlain(e.name);
    NameWordIs(SafeLabel(e.name));
  }

  lemma SayVerb(d: Defaults, line: string, k: Kind)
    requires var t := Trim(line); !Silent(t) && Verb(t) == VerbOf(k)
    ensures Say(d, line) == SayDevice(d, k, Fields(Rest(Trim(line))))
  {
    VerbsAre(k);
  }

  /** A rewritten line says what the old line said, edited. */
  lemma RebuiltSays(e: Edit, d: Defaults, line: string)
    requires Plain(e.id) && Names(line, e.kind, e.id) && !Say(d, line).Wrong?
    ensures Say(d, line).Has? && Say(d, line).kind == e.kind && Say(d, line).device.id == e.id
    ensures Say(d, Rebuild(e, line)) == Has(e.kind, Edited(Say(d, line).device, e))
  {
    hide Trim, Verb, Rest, Fields, Say, FieldsOf, Full, NewWords, MoreWords, LearnAll, Spaced, Edited;
    var t := Trim(line);
    var fs := Fields(Rest(t));
    var blank := Device(e.id, "", OwnDefault(d, e.kind), d.warn);
    var words := NewWords(e, fs[1..]) + MoreWords(e, fs[1..]);
    VerbsAre(e.kind);
    PlainIsSound(e.id);
    FieldsSound(Rest(t));
    SayVerb(d, line, e.kind);
    WordsNoSpace(e, fs[1..], fs[1..]);
    LineWords(VerbOf(e.kind), [e.id] + words);
    SayVerb(d, Rebuild(e, line), e.kind);
    FullFirst(e.id, words);
    LearnRewritten(e, blank, fs[1..], MoreWords(e, fs[1..]), false, false);
    LearnMore(e, LearnAll(e.kind, blank, fs[1..]).value, fs[1..]);
    LearnKeepsId(e.kind, blank, fs[1..]);
  }

  lemma {:induction false} LearnKeepsId(k: Kind, v: Device, fs: seq<Field>)
    ensures LearnAll(k, v, fs).Some? ==> LearnAll(k, v, fs).value.id == v.id
    decreases |fs|
  {
    if fs != [] && Learn(k, v, fs[0]).Some? {
      LearnKeepsId(k, Learn(k, v, fs[0]).value, fs[1..]);
    }
  }

  /** An added line says the device as the defaults have it, edited. */
  lemma AddedSays(e: Edit, d: Defaults)
    requires Plain(e.id)
    ensures Say(d, Added(e)) == Has(e.kind, Edited(Device(e.id, "", OwnDefault(d, e.kind), d.warn), e))
  {
    hide Trim, Verb, Rest, Fields, Say, FieldsOf, Full, LearnAll, Spaced, Edited, HasKey;
    var blank := Device(e.id, "", OwnDefault(d, e.kind), d.warn);
    VerbsAre(e.kind);
    PlainIsSound(e.id);
    NoKeys(KeyOf(e.kind, e.flag));
    NoKeys("name");
    assert [] + MoreWords(e, []) == MoreWords(e, []);
    WordsNoSpace(e, [], []);
    assert [e.id, FlagWord(e)] + (if e.name == "" then [] else [NameWord(SafeLabel(e.name))]) ==
      [e.id] + MoreWords(e, []);
    LineWords(VerbOf(e.kind), [e.id] + MoreWords(e, []));
    SayVerb(d, Added(e), e.kind);
    FullFirst(e.id, MoreWords(e, []));
    LearnMore(e, blank, []);
  }

  /** The line is about the device exactly when it says a device of that kind and
      id, in a file that can be read. */
  lemma NamesSays(d: Defaults, line: string, k: Kind, id: string)
    requires !Say(d, line).Wrong?
    ensures Names(line, k, id) <==> Say(d, line).Has? && Say(d, line).kind == k && Say(d, line).device.id == id
  {
    hide Trim, Verb, Rest, Fields, LearnAll;
    VerbsAre(k);
    var fs := Fields(Rest(Trim(line)));
    if fs != [] {
      LearnKeepsId(Camera, Device(Ident(fs[0]), "", OwnDefault(d, Camera), d.warn), fs[1..]);
      LearnKeepsId(Box, Device(Ident(fs[0]), "", OwnDefault(d, Box), d.warn), fs[1..]);
    }
  }

  /** The edit of the text is the edit of what it says. */
  lemma {:induction false} SetRefines(e: Edit, d: Defaults, lines: seq<string>)
    requires Plain(e.id) && Parse(d, lines).Some?
    ensures Parse(d, SetLines(e, lines)) == Some(EditConf(Parse(d, lines).value, e))
    decreases |lines|
  {
    hide Say, Names, Rebuild, Added, Edited;
    if lines == [] {
      AddedSays(e, d);
      ParseOne(d, Added(e));
    } else {
      NamesSays(d, lines[0], e.kind, e.id);
      if Names(lines[0], e.kind, e.id) {
        RebuiltSays(e, d, lines[0]);
        ParseFirst(d, Rebuild(e, lines[0]), lines[1..]);
      } else {
        ParseFirst(d, lines[0], SetLines(e, lines[1..]));
        var d' := if Say(d, lines[0]).Now? then Say(d, lines[0]).defaults else d;
        SetRefines(e, d', lines[1..]);
      }
    }
  }

  lemma ParseOne(d: Defaults, line: string)
    requires Say(d, line).Has?
    ensures Parse(d, [line]) == Some(WithDevices(Conf(d, [], []), Say(d, line).kind, [Say(d, line).device]))
  {
    hide Say;
    ParseFirst(d, line, []);
    assert [line] + [] == [line];
    assert Parse(d, []) == Some(Conf(d, [], []));
    assert [Say(d, line).device] + [] == [Say(d, line).device];
  }

  lemma ParseFirst(d: Defaults, line: string, lines: seq<string>)
    ensures var said, rest := Say(d, line), Parse(d, lines);
            Parse(d, [line] + lines) ==
            if said.Wrong? then None
            else if said.Nothing? then rest
            else if said.Now? then Parse(said.defaults, lines)
            else if rest.None? then None
            else Some(WithDevices(rest.value, said.kind, [said.device] + Devices(rest.value, said.kind)))
  {
    hide Say;
    assert ([line] + lines)[1..] == lines;
  }

  lemma WithoutFirst(v: Device, vs: seq<Device>, id: string)
    ensures Without([v] + vs, id) == if v.id == id then Without(vs, id) else [v] + Without(vs, id)
  {
    assert ([v] + vs)[1..] == vs;
    assert [] + Without(vs, id) == Without(vs, id);
  }

  /** Forgetting drops the device from what the text says, and nothing else. */
  lemma {:induction false} ForgetRefines(k: Kind, id: string, d: Defaults, lines: seq<string>)
    requires Parse(d, lines).Some?
    ensures Parse(d, ForgetLines(k, id, lines)) == Some(ForgetConf(Parse(d, lines).value, k, id))
    decreases |lines|
  {
    hide Say, Names;
    if lines != [] {
      NamesSays(d, lines[0], k, id);
      var d' := if Say(d, lines[0]).Now? then Say(d, lines[0]).defaults else d;
      ForgetRefines(k, id, d', lines[1..]);
      if Say(d, lines[0]).Has? {
        WithoutFirst(Say(d, lines[0]).device, Devices(Parse(d, lines[1..]).value, k), id);
      }
      if !Names(lines[0], k, id) {
        ParseFirst(d, lines[0], ForgetLines(k, id, lines[1..]));
      } else {
        assert [] + ForgetLines(k, id, lines[1..]) == ForgetLines(k, id, lines[1..]);
      }
    }
  }

  // ------------------------------------------------------------------ answers

  function Lookup(vs: seq<Device>, id: string): Option<Device> {
    if vs == [] then None else if vs[0].id == id then Some(vs[0]) else Lookup(vs[1..], id)
  }

  /** May this camera be written to; is this box used. */
  function OwnAnswer(c: Conf, k: Kind, id: string): bool {
    var v := Lookup(Devices(c, k), id);
    if v.Some? then v.value.own else OwnDefault(c.defaults, k)
  }

  /** Is anybody warned about this device. Cameras answer first. */
  function WarnAnswer(c: Conf, id: string): bool {
    var camera, box := Lookup(c.cameras, id), Lookup(c.boxes, id);
    if camera.Some? then camera.value.warn else if box.Some? then box.value.warn else c.defaults.warn
  }

  function OrNew(v: Option<Device>, e: Edit, d: Defaults): Device {
    if v.Some? then v.value else Device(e.id, "", OwnDefault(d, e.kind), d.warn)
  }

  lemma {:induction false} EditLookup(vs: seq<Device>, e: Edit, d: Defaults, id: string)
    ensures Lookup(EditDevices(vs, e, d), id) ==
            if id == e.id then Some(Edited(OrNew(Lookup(vs, id), e, d), e)) else Lookup(vs, id)
  {
    if vs != [] && vs[0].id != e.id {
      EditLookup(vs[1..], e, d, id);
    }
  }

  /** An edit sets the one answer asked for; every answer about another device, or
      another kind of device, stays. */
  lemma EditAnswers(c: Conf, e: Edit, k: Kind, id: string)
    ensures Lookup(Devices(EditConf(c, e), k), id) ==
            if k == e.kind && id == e.id then Some(Edited(OrNew(Lookup(Devices(c, k), id), e, c.defaults), e))
            else Lookup(Devices(c, k), id)
    ensures OwnAnswer(EditConf(c, e), k, id) ==
            if k == e.kind && id == e.id && e.flag == Own then e.on else OwnAnswer(c, k, id)
    ensures id != e.id ==> WarnAnswer(EditConf(c, e), id) == WarnAnswer(c, id)
  {
    EditLookup(Devices(c, e.kind), e, c.defaults, id);
  }

  function Other(k: Kind): Kind {
    if k == Camera then Box else Camera
  }

  /** The warning asked for is the warning given, unless the id is also in the
      other list. */
  lemma WarnIsSet(c: Conf, e: Edit)
    requires Lookup(Devices(c, Other(e.kind)), e.id).None?
    ensures WarnAnswer(EditConf(c, e), e.id) == if e.flag == Warn then e.on else WarnAnswer(c, e.id)
  {
    EditAnswers(c, e, Camera, e.id);
    EditAnswers(c, e, Box, e.id);
  }

  /** If it is, a box's warning is heard exactly when the camera's is the same. */
  lemma WarnIsShadowed(c: Conf, e: Edit)
    requires e.kind == Box && e.flag == Warn && Lookup(c.cameras, e.id).Some?
    ensures WarnAnswer(EditConf(c, e), e.id) == WarnAnswer(c, e.id)
    ensures WarnAnswer(EditConf(c, e), e.id) == e.on <==> Lookup(c.cameras, e.id).value.warn == e.on
  {
    EditAnswers(c, e, Camera, e.id);
  }

  lemma {:induction false} WithoutLookup(vs: seq<Device>, gone: string, id: string)
    ensures Lookup(Without(vs, gone), id) == if id == gone then None else Lookup(vs, id)
  {
    if vs != [] {
      assert vs == [vs[0]] + vs[1..];
      WithoutFirst(vs[0], vs[1..], gone);
      assert ([vs[0]] + Without(vs[1..], gone))[1..] == Without(vs[1..], gone);
      WithoutLookup(vs[1..], gone, id);
    }
  }

  /** A forgotten device answers as one never named; every other answers as before. */
  lemma ForgetAnswers(c: Conf, k: Kind, gone: string, at: Kind, id: string)
    ensures var c' := ForgetConf(c, k, gone);
            && c'.defaults == c.defaults
            && Lookup(Devices(c', at), id) == if at == k && id == gone then None else Lookup(Devices(c, at), id)
  {
    WithoutLookup(Devices(c, k), gone, id);
  }

  ghost predicate SameAnswers(a: Conf, b: Conf) {
    && a.defaults == b.defaults
    && forall k: Kind, id: string :: Lookup(Devices(a, k), id) == Lookup(Devices(b, k), id)
  }

  /** Edits that do not set the same flag of the same device, nor give it two
      names. */
  predicate Apart(a: Edit, b: Edit) {
    a.kind == b.kind && a.id == b.id ==> a.flag != b.flag && (a.name == b.name || a.name == "" || b.name == "")
  }

  lemma EditsCommute(c: Conf, a: Edit, b: Edit)
    requires Apart(a, b)
    ensures SameAnswers(EditConf(EditConf(c, a), b), EditConf(EditConf(c, b), a))
  {
    forall k: Kind, id: string
      ensures Lookup(Devices(EditConf(EditConf(c, a), b), k), id) == Lookup(Devices(EditConf(EditConf(c, b), a), k), id)
    {
      EditAnswers(c, a, k, id);
      EditAnswers(c, b, k, id);
      EditAnswers(EditConf(c, a), b, k, id);
      EditAnswers(EditConf(c, b), a, k, id);
    }
  }

  /** Two such edits of a file say the same in either order. */
  lemma SetsCommute(a: Edit, b: Edit, d: Defaults, lines: seq<string>)
    requires Apart(a, b) && Plain(a.id) && Plain(b.id) && Parse(d, lines).Some?
    ensures var x, y := Parse(d, SetLines(b, SetLines(a, lines))), Parse(d, SetLines(a, SetLines(b, lines)));
            x.Some? && y.Some? && SameAnswers(x.value, y.value)
  {
    hide Parse, SetLines, EditConf, SameAnswers, Plain;
    SetRefines(a, d, lines);
    SetRefines(b, d, lines);
    SetRefines(b, d, SetLines(a, lines));
    SetRefines(a, d, SetLines(b, lines));
    EditsCommute(Parse(d, lines).value, a, b);
  }

  // -------------------------------------------------------- what stays, what not

  /** Where the device is first named, or the end. */
  function FirstNaming(k: Kind, id: string, lines: seq<string>): (n: nat)
    ensures n <= |lines|
  {
    if lines == [] || Names(lines[0], k, id) then 0 else 1 + FirstNaming(k, id, lines[1..])
  }

  lemma {:induction false} FirstNamingIs(k: Kind, id: string, lines: seq<string>)
    ensures var n := FirstNaming(k, id, lines);
            (n < |lines| ==> Names(lines[n], k, id)) && forall i :: 0 <= i < n ==> !Names(lines[i], k, id)
  {
    hide Names;
    if lines != [] && !Names(lines[0], k, id) {
      FirstNamingIs(k, id, lines[1..]);
    }
  }

  /** All lines but one are what they were, byte for byte. */
  lemma {:induction false} SetTouchesOne(e: Edit, lines: seq<string>)
    ensures var n := FirstNaming(e.kind, e.id, lines);
            SetLines(e, lines) == if n < |lines| then lines[n := Rebuild(e, lines[n])] else lines + [Added(e)]
  {
    hide Names, Rebuild, Added;
    if lines != [] && !Names(lines[0], e.kind, e.id) {
      SetTouchesOne(e, lines[1..]);
      assert lines == [lines[0]] + lines[1..];
    }
  }

  lemma SaidIdHasNoSpace(d: Defaults, line: string)
    requires Say(d, line).Has?
    ensures NoSpace(Say(d, line).device.id)
  {
    hide Trim, Verb, Rest, Fields, LearnAll;
    var fs := Fields(Rest(Trim(line)));
    FieldsSound(Rest(Trim(line)));
    assert Sound(fs[0]);
    var k := Say(d, line).kind;
    LearnKeepsId(k, Device(Ident(fs[0]), "", OwnDefault(d, k), d.warn), fs[1..]);
  }

  lemma IdentIsNot(id: string)
    requires '=' in id
    ensures Ident(FieldOf(id)) != id
  {
  }

  /** An added line names its device exactly when the id is one a line can hold:
      not empty, with no space and no equals sign. */
  lemma OnlyPlainIds(e: Edit, d: Defaults)
    ensures Say(d, Added(e)).Has? && Say(d, Added(e)).device.id == e.id <==> Plain(e.id)
  {
    hide Say, Added, FieldOf;
    if Plain(e.id) {
      AddedSays(e, d);
    } else if Say(d, Added(e)).Has? {
      SaidIdHasNoSpace(d, Added(e));
      if NoSpace(e.id) {
        FirstWordNames(e, d);
        if e.id == "" {
          FlagWordIs(e);
        } else {
          IdentIsNot(e.id);
        }
      }
    }
  }

  lemma FirstWordNames(e: Edit, d: Defaults)
    requires NoSpace(e.id) && Say(d, Added(e)).Has?
    ensures Say(d, Added(e)).device.id == Ident(FieldOf(if e.id == "" then FlagWord(e) else e.id))
  {
    hide Trim, Verb, Rest, Tokens, FieldOf, LearnAll, Say, FlagWord, HasKey;
    var more := if e.name == "" then [] else [NameWord(SafeLabel(e.name))];
    var first := if e.id == "" then FlagWord(e) else e.id;
    VerbsAre(e.kind);
    FlagWordIs(e);
    AddedTokens(e, more, first);
    var t := Trim(Added(e));
    SayVerb(d, Added(e), e.kind);
    var fs := Fields(Rest(t));
    assert fs[0] == FieldOf(first);
    LearnKeepsId(e.kind, Device(Ident(fs[0]), "", OwnDefault(d, e.kind), d.warn), fs[1..]);
  }

  lemma AddedTokens(e: Edit, more: seq<string>, first: string)
    requires NoSpace(e.id) && more == (if e.name == "" then [] else [NameWord(SafeLabel(e.name))])
    requires first == if e.id == "" then FlagWord(e) else e.id
    ensures var t := Trim(Added(e));
            !Silent(t) && Verb(t) == VerbOf(e.kind) && Tokens(Rest(t)) != [] && Tokens(Rest(t))[0] == first
  {
    hide Trim, Verb, Rest, Tokens, FlagWord, NameWord, SafeLabel, Spaced, VerbOf;
    var later := [FlagWord(e)] + more;
    VerbsAre(e.kind);
    FlagWordIs(e);
    LabelIsPlain(e.name);
    NameWordIs(SafeLabel(e.name));
    assert AllNoSpace([e.id] + later);
    TokensSpaced([e.id] + later);
    FullOfTwo(e.id, FlagWord(e), more);
    SpacedStep(e.id, later);
    SpacedStep(FlagWord(e), more);
    assert [e.id, FlagWord(e)] + more == [e.id] + later;
    if e.id == "" {
      LastOf(FlagWord(e));
      LineOfWords(VerbOf(e.kind), " " + FlagWord(e), Spaced(more));
      Respaced(VerbOf(e.kind), FlagWord(e), Spaced(more));
    } else {
      LastOf(e.id);
      LineOfWords(VerbOf(e.kind), e.id, Spaced(later));
      assert VerbOf(e.kind) + " " + e.id + Spaced(later) == VerbOf(e.kind) + (" " + e.id + Spaced(later));
    }
  }

  lemma FullOfTwo(a: string, b: string, more: seq<string>)
    requires b != ""
    ensures var ts := Full([a] + ([b] + more)); ts != [] && ts[0] == if a == "" then b else a
  {
    assert ([a] + ([b] + more))[1..] == [b] + more;
  }

  lemma Respaced(verb: string, w: string, more: string)
    ensures verb + " " + (" " + w) + more == verb + (" " + "" + (" " + w + more))
    ensures " " + (" " + w) + more == " " + "" + (" " + w + more)
  {
  }

  // ------------------------------------------------------------ the loops

  method TrimLoop(s: string) returns (t: string)
    ensures t == Trim(s)
  {
    var b := 0;
    while b < |s| && Blank(s[b])
      invariant b <= |s| && TrimLeft(s[b..]) == TrimLeft(s)
    {
      assert s[b..][1..] == s[b + 1..];
      b := b + 1;
    }
    t := TrimEnd(s[b..]);
  }

  method TrimEnd(s: string) returns (t: string)
    ensures t == TrimRight(s)
  {
    var e := |s|;
    assert s[..e] == s;
    while e > 0 && (Blank(s[e - 1]) || s[e - 1] == '\r')
      invariant 0 <= e <= |s| && TrimRight(s[..e]) == TrimRight(s)
    {
      assert s[..e][..e - 1] == s[..e - 1];
      e := e - 1;
    }
    t := s[..e];
  }

  method LabelLoop(name: string) returns (out: string)
    ensures out == SafeLabel(name)
  {
    hide SafeLabel;
    out := "";
    assert name[0..] == name && out + SafeLabel(name) == SafeLabel(name);
    for i := 0 to |name|
      invariant out + SafeLabel(name[i..]) == SafeLabel(name)
    {
      var c := if Printing(name[i]) then name[i] else '_';
      LabelFirst(name, i);
      assert out + ([c] + SafeLabel(name[i + 1..])) == out + [c] + SafeLabel(name[i + 1..]);
      out := out + [c];
    }
    assert SafeLabel(name[|name|..]) == "";
  }

  lemma LabelFirst(name: string, i: nat)
    requires i < |name|
    ensures SafeLabel(name[i..]) == [if Printing(name[i]) then name[i] else '_'] + SafeLabel(name[i + 1..])
  {
    assert name[i..][1..] == name[i + 1..];
  }

  lemma SpacedStep(w: string, ws: seq<string>)
    ensures Spaced([w] + ws) == " " + w + Spaced(ws)
  {
    assert ([w] + ws)[1..] == ws;
  }

  lemma HasKeyGrows(fs: seq<Field>, i: nat, key: string)
    requires i < |fs|
    ensures HasKey(fs[..i + 1], key) == (HasKey(fs[..i], key) || fs[i].key == key)
  {
    if HasKey(fs[..i], key) {
      var j :| 0 <= j < i && fs[..i][j].key == key;
      assert fs[..i + 1][j].key == key;
    }
    if fs[i].key == key {
      assert fs[..i + 1][i].key == key;
    }
    if HasKey(fs[..i + 1], key) {
      var j :| 0 <= j < i + 1 && fs[..i + 1][j].key == key;
      assert j < i ==> fs[..i][j].key == key;
    }
  }

  /** The words of a line, written anew one by one. */
  method RebuildLoop(e: Edit, fs: seq<Field>) returns (line: string)
    requires fs != []
    ensures line == Rebuilt(e, fs)
  {
    hide Spaced, HasKey, NewWord;
    var key, rest := KeyOf(e.kind, e.flag), fs[1..];
    var more := MoreWords(e, rest);
    line := VerbOf(e.kind) + (" " + Ident(fs[0]));
    SpacedStep(Ident(fs[0]), NewWords(e, rest) + more);
    var flagged, named := false, false;
    NoKeys(key);
    NoKeys("name");
    assert rest[..0] == [] && rest[0..] == rest;
    assert line + Spaced(NewWords(e, rest) + more) ==
      VerbOf(e.kind) + (" " + Ident(fs[0]) + Spaced(NewWords(e, rest) + more));
    for i := 0 to |rest|
      invariant line + Spaced(NewWords(e, rest[i..]) + more) == Rebuilt(e, fs)
      invariant flagged == HasKey(rest[..i], key) && named == HasKey(rest[..i], "name")
    {
      ghost var tail := NewWords(e, rest[i + 1..]) + more;
      var f := rest[i];
      assert rest[i..][1..] == rest[i + 1..];
      assert NewWords(e, rest[i..]) + more == [NewWord(e, f)] + tail;
      SpacedStep(NewWord(e, f), tail);
      HasKeyGrows(rest, i, key);
      HasKeyGrows(rest, i, "name");
      line := line + (" " + NewWord(e, f));
      flagged := flagged || f.key == key;
      named := named || f.key == "name";
    }
    assert rest[..|rest|] == rest && NewWords(e, rest[|rest|..]) + more == more;
    line := line + Spaced(more);
  }

  /** The configuration as it was read, and the file it was read from. */
  class CamConfig {
    /** What a new file begins with: comments. */
    const header: seq<string>
    /** The lines on disk, if there is a file. */
    var disk: Option<seq<string>>
    var defaults: Defaults
    var cameras: seq<Device>
    var boxes: seq<Device>

    constructor (top: seq<string>, file: Option<seq<string>>)
      requires forall i :: 0 <= i < |top| ==> Silent(Trim(top[i]))
      ensures header == top && disk == file
    {
      header, disk := top, file;
      defaults, cameras, boxes := OUT_OF_THE_BOX, [], [];
    }

    function Text(): seq<string>
      reads this
    {
      if disk.Some? then disk.value else []
    }

    ghost predicate Reads(c: Conf)
      reads this
    {
      defaults == c.defaults && cameras == c.cameras && boxes == c.boxes
    }

    /** Reads the file line by line, up to the first one that is wrong. */
    method Load() returns (ok: bool)
      modifies `defaults, `cameras, `boxes
      ensures ok == Parse(OUT_OF_THE_BOX, Text()).Some?
      ensures ok ==> Reads(Parse(OUT_OF_THE_BOX, Text()).value)
    {
      hide Say;
      var lines := Text();
      defaults, cameras, boxes := OUT_OF_THE_BOX, [], [];
      ghost var goal := Parse(OUT_OF_THE_BOX, lines);
      var i := 0;
      OntoNothing(goal);
      assert lines[0..] == lines;
      while i < |lines|
        invariant 0 <= i <= |lines|
        invariant Onto(cameras, boxes, Parse(defaults, lines[i..])) == goal
        decreases |lines| - i
      {
        assert lines[i..] == [lines[i]] + lines[i + 1..];
        ParseFirst(defaults, lines[i], lines[i + 1..]);
        var said := Say(defaults, lines[i]);
        match said {
          case Wrong => return false;
          case Nothing =>
          case Now(d) => defaults := d;
          case Has(k, v) =>
            if Parse(defaults, lines[i + 1..]).Some? {
              OntoPush(cameras, boxes, Parse(defaults, lines[i + 1..]), k, v);
            }
            if k == Camera {
              cameras := cameras + [v];
            } else {
              boxes := boxes + [v];
            }
        }
        i := i + 1;
      }
      assert cameras + [] == cameras && boxes + [] == boxes;
      ok := true;
    }

    /** Puts lines on disk, under the header if there was no file, and reads them. */
    method Write(lines: seq<string>) returns (ok: bool)
      modifies this
      ensures disk == Some(if old(disk).None? then header + lines else lines)
      ensures ok == Parse(OUT_OF_THE_BOX, Text()).Some?
      ensures ok ==> Reads(Parse(OUT_OF_THE_BOX, Text()).value)
    {
      disk := Some(if disk.None? then header + lines else lines);
      ok := Load();
    }

    /** Finds the first line about the device and rewrites it, or adds one. */
    method SetFlag(e: Edit) returns (ok: bool)
      modifies this
      ensures disk == Some((if old(disk).None? then header else []) + SetLines(e, old(Text())))
      ensures ok == Parse(OUT_OF_THE_BOX, Text()).Some?
      ensures ok ==> Reads(Parse(OUT_OF_THE_BOX, Text()).value)
    {
      hide Parse, Names, Rebuild;
      var lines := Text();
      var n := Search(e.kind, e.id, lines);
      SetTouchesOne(e, lines);
      if n < |lines| {
        var line := RewriteLine(e, lines[n]);
        lines := lines[n := line];
      } else {
        lines := lines + [Added(e)];
      }
      assert [] + lines == lines;
      ok := Write(lines);
    }

    method Search(k: Kind, id: string, lines: seq<string>) returns (n: nat)
      ensures n == FirstNaming(k, id, lines)
    {
      hide Names;
      n := 0;
      assert lines[0..] == lines;
      while n < |lines| && !Names(lines[n], k, id)
        invariant n <= |lines| && FirstNaming(k, id, lines) == n + FirstNaming(k, id, lines[n..])
      {
        assert lines[n..][1..] == lines[n + 1..];
        n := n + 1;
      }
    }

    method RewriteLine(e: Edit, line: string) returns (r: string)
      ensures r == Rebuild(e, line)
    {
      hide Rebuilt, Fields;
      var t := TrimLoop(line);
      var fs := Fields(Rest(t));
      if fs == [] {
        return line;
      }
      r := RebuildLoop(e, fs);
    }

    /** Drops every line about the device; a file without one is left alone. */
    method ForgetDevice(k: Kind, id: string) returns (ok: bool)
      modifies this
      ensures disk == if old(disk).None? then None else Some(ForgetLines(k, id, old(disk).value))
      ensures old(Text()) != ForgetLines(k, id, old(Text())) ==>
                ok == Parse(OUT_OF_THE_BOX, Text()).Some? && (ok ==> Reads(Parse(OUT_OF_THE_BOX, Text()).value))
    {
      hide Parse, Names;
      if disk.None? {
        return true;
      }
      var lines := disk.value;
      var kept: seq<string> := [];
      for i := 0 to |lines|
        invariant kept + ForgetLines(k, id, lines[i..]) == ForgetLines(k, id, lines)
      {
        assert lines[i..][1..] == lines[i + 1..];
        if !Names(lines[i], k, id) {
          assert kept + ([lines[i]] + ForgetLines(k, id, lines[i + 1..])) ==
            kept + [lines[i]] + ForgetLines(k, id, lines[i + 1..]);
          kept := kept + [lines[i]];
        } else {
          assert [] + ForgetLines(k, id, lines[i + 1..]) == ForgetLines(k, id, lines[i + 1..]);
        }
      }
      assert lines[|lines|..] == [] && kept + [] == kept;
      ForgetShorter(k, id, lines);
      if |kept| == |lines| {
        return true;
      }
      ok := Write(kept);
    }
  }

  lemma {:induction false} ForgetShorter(k: Kind, id: string, lines: seq<string>)
    ensures |ForgetLines(k, id, lines)| <= |lines|
    ensures |ForgetLines(k, id, lines)| == |lines| ==> ForgetLines(k, id, lines) == lines
  {
    hide Names;
    if lines != [] {
      ForgetShorter(k, id, lines[1..]);
    }
  }

  /** Devices read so far, and those still to come. */
  function Onto(cameras: seq<Device>, boxes: seq<Device>, rest: Option<Conf>): Option<Conf> {
    if rest.None? then None else Some(Conf(rest.value.defaults, cameras + rest.value.cameras, boxes + rest.value.boxes))
  }

  lemma OntoNothing(rest: Option<Conf>)
    ensures Onto([], [], rest) == rest
  {
    if rest.Some? {
      assert [] + rest.value.cameras == rest.value.cameras && [] + rest.value.boxes == rest.value.boxes;
    }
  }

  lemma OntoPush(cameras: seq<Device>, boxes: seq<Device>, rest: Option<Conf>, k: Kind, v: Device)
    requires rest.Some?
    ensures Onto(cameras, boxes, Some(WithDevices(rest.value, k, [v] + Devices(rest.value, k)))) ==
            if k == Camera then Onto(cameras + [v], boxes, rest) else Onto(cameras, boxes + [v], rest)
  {
    assert cameras + ([v] + rest.value.cameras) == cameras + [v] + rest.value.cameras;
    assert boxes + ([v] + rest.value.boxes) == boxes + [v] + rest.value.boxes;
  }

  /** Comments say nothing, so a new file means what its other lines mean. */
  lemma {:induction false} CommentsSayNothing(header: seq<string>, d: Defaults, lines: seq<string>)
    requires forall i :: 0 <= i < |header| ==> Silent(Trim(header[i]))
    ensures Parse(d, header + lines) == Parse(d, lines)
  {
    hide Trim;
    if header == [] {
      assert header + lines == lines;
    } else {
      assert header + lines == [header[0]] + (header[1..] + lines);
      ParseFirst(d, header[0], header[1..] + lines);
      CommentsSayNothing(header[1..], d, lines);
    }
  }
}
