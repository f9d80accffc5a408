/**
 * analyzeIntent: reading the language model's key:value reply into the
 * intent and its slots (description, value, category name).
 */
module Intent {
  import opened Wrappers
  import opened Text
  import opened Numbers

  const INTENT_KEY: string := "intenção:"
  const DESCRIPTION_KEY: string := "descrição:"
  const VALUE_KEY: string := "valor:"
  const NAME_KEY: string := "nome:"

  /** The intent reported when the reply has no intent line. */
  const UNCERTAIN: string := "incerto"

  /** The parsed reply. An absent line and a value that parseFloat reads as
      NaN are both None, as JavaScript's null and NaN are both falsy. */
  datatype Analysis = Analysis(intent: string, description: Option<string>, value: Option<real>, name: Option<string>)

  const UNCERTAIN_ANALYSIS := Analysis(UNCERTAIN, None, None, None)

  function Lines(reply: string): seq<string> {
    Split(reply, '\n')
  }

  /** The index of the first line at or after `j` that starts with `key`. */
  function FindFrom(lines: seq<string>, key: string, j: nat): (r: Option<nat>)
    requires j <= |lines|
    ensures r.Some? ==> j <= r.value < |lines| && StartsWith(lines[r.value], key)
    ensures r.Some? ==> forall i :: j <= i < r.value ==> !StartsWith(lines[i], key)
    ensures r.None? ==> forall i :: j <= i < |lines| ==> !StartsWith(lines[i], key)
    decreases |lines| - j
  {
    if j == |lines| then None
    else if StartsWith(lines[j], key) then Some(j)
    else FindFrom(lines, key, j + 1)
  }

  /** `lines.find(line => line.startsWith(key))`, as an index. */
  function FindLine(lines: seq<string>, key: string): (r: Option<nat>)
    ensures r.Some? ==> r.value < |lines| && StartsWith(lines[r.value], key)
    ensures r.Some? ==> forall i :: 0 <= i < r.value ==> !StartsWith(lines[i], key)
    ensures r.None? ==> forall i :: 0 <= i < |lines| ==> !StartsWith(lines[i], key)
  {
    FindFrom(lines, key, 0)
  }

  /** `k` is the index of the first line that starts with `key`. */
  predicate FirstWith(lines: seq<string>, key: string, k: nat) {
    k < |lines| && StartsWith(lines[k], key) && forall i :: 0 <= i < k ==> !StartsWith(lines[i], key)
  }

  lemma FirstWithUnique(lines: seq<string>, key: string, k: nat)
    requires FirstWith(lines, key, k)
    ensures FindLine(lines, key) == Some(k)
  {
  }

  predicate IsKey(key: string) {
    |key| >= 1 && key[|key| - 1] == ':' && ':' !in key[..|key| - 1]
  }

  lemma KeysAreKeys()
    ensures IsKey(INTENT_KEY) && IsKey(DESCRIPTION_KEY) && IsKey(VALUE_KEY) && IsKey(NAME_KEY)
  {
  }

  lemma KeyedLineHasColon(line: string, key: string)
    requires IsKey(key) && StartsWith(line, key)
    ensures ':' in line
  {
    assert line[|key| - 1] == key[|key| - 1];
  }

  /** `line.split(':')[1].trim()`. */
  function Field(line: string): string
    requires ':' in line
  {
    Trim(Split(line, ':')[1])
  }

  /** The trimmed field of the first line that starts with `key`, if any. */
  function TextField(lines: seq<string>, key: string): (r: Option<string>)
    requires IsKey(key)
  {
    match FindLine(lines, key)
    case None => None
    case Some(k) => KeyedLineHasColon(lines[k], key); Some(Field(lines[k]))
  }

  /** The value line's field read by parseFloat (None for a missing line or NaN). */
  function ValueField(lines: seq<string>): Option<real> {
    KeysAreKeys();
    match TextField(lines, VALUE_KEY)
    case None => None
    case Some(t) => ParseFloat(t)
  }

  /** The analysis read from the lines when line `k` is the intent line. */
  function AnalysisAt(lines: seq<string>, k: nat): Analysis
    requires k < |lines| && StartsWith(lines[k], INTENT_KEY)
  {
    KeysAreKeys();
    KeyedLineHasColon(lines[k], INTENT_KEY);
    Analysis(Field(lines[k]), TextField(lines, DESCRIPTION_KEY), ValueField(lines), TextField(lines, NAME_KEY))
  }

  /** analyzeIntent, given the language model's reply. */
  function Analyze(reply: string): (a: Analysis)
    ensures FindLine(Lines(reply), INTENT_KEY).None? ==> a == UNCERTAIN_ANALYSIS
  {
    var lines := Lines(reply);
    match FindLine(lines, INTENT_KEY)
    case None => UNCERTAIN_ANALYSIS
    case Some(k) => AnalysisAt(lines, k)
  }

  /** The field of a keyed line is the trimmed text between its first and
      second colon (or the end of the line). */
  lemma FieldBetweenColons(line: string, key: string)
    requires IsKey(key) && StartsWith(line, key)
    ensures ':' in line
    ensures Field(line) == Trim(TakeUntil(line[|key|..], ':'))
  {
    assert line == key + line[|key|..];
    SecondPiece(key, ':', line[|key|..]);
  }

  /** Each slot is read from the first line with its key, and only from it. */
  lemma TextFieldOfFirstLine(lines: seq<string>, key: string, k: nat)
    requires IsKey(key) && FirstWith(lines, key, k)
    ensures TextField(lines, key) == Some(Trim(TakeUntil(lines[k][|key|..], ':')))
  {
    FirstWithUnique(lines, key, k);
    FieldBetweenColons(lines[k], key);
  }

  /** With an intent line, the intent is the text between the first two
      colons of the first such line, and the value is read from the value
      line (the other slots likewise, by AnalysisAt and TextFieldOfFirstLine). */
  lemma AnalyzeFirstIntentLine(reply: string, k: nat)
    requires FirstWith(Lines(reply), INTENT_KEY, k)
    ensures Analyze(reply).intent == Trim(TakeUntil(Lines(reply)[k][|INTENT_KEY|..], ':'))
    ensures Analyze(reply).value == ValueField(Lines(reply))
  {
    var lines := Lines(reply);
    AnalyzeIsAnalysisAt(reply, k);
    KeysAreKeys();
    FieldBetweenColons(lines[k], INTENT_KEY);
  }

  lemma AnalyzeIsAnalysisAt(reply: string, k: nat)
    requires FirstWith(Lines(reply), INTENT_KEY, k)
    ensures Analyze(reply) == AnalysisAt(Lines(reply), k)
  {
    FirstWithUnique(Lines(reply), INTENT_KEY, k);
  }

  /** The reply format the prompt asks the model for, with the value
      written as toFixed(2) writes it. */
  function Render(intent: string, description: string, cents: nat, name: string): string {
    Join(RenderLines(intent, description, cents, name), '\n')
  }

  function RenderLines(intent: string, description: string, cents: nat, name: string): seq<string> {
    [INTENT_KEY + " " + intent, DESCRIPTION_KEY + " " + description, VALUE_KEY + " " + Fixed2(cents), NAME_KEY + " " + name]
  }

  /** A slot the model can write on one line and that reads back unchanged. */
  predicate PlainSlot(s: string) {
    IsTrimmed(s) && ':' !in s && '\n' !in s
  }

  lemma TakeUntilAbsent(t: string, sep: char)
    requires sep !in t
    ensures TakeUntil(t, sep) == t
  {
  }

  lemma ReadSlot(key: string, s: string)
    requires IsKey(key) && IsTrimmed(s) && ':' !in s
    ensures ':' in key + " " + s
    ensures Field(key + " " + s) == s
  {
    var rest := " " + s;
    var line := key + " " + s;
    assert line == key + rest;
    assert line[..|key|] == key;
    assert line[|key|..] == rest;
    FieldBetweenColons(line, key);
    PaddedSlot(s);
  }

  /** A slot after one blank reads back as itself. */
  lemma PaddedSlot(s: string)
    requires IsTrimmed(s) && ':' !in s
    ensures Trim(TakeUntil(" " + s, ':')) == s
  {
    var rest := " " + s;
    assert ':' !in rest;
    TakeUntilAbsent(rest, ':');
    var e: string := [];
    assert rest == " " + s + e;
    TrimUnique(" ", s, e);
  }

  lemma Fixed2IsSlot(cents: nat)
    ensures PlainSlot(Fixed2(cents))
  {
    var f := Fixed2(cents);
    var w := ShowNat(cents / 100);
    assert f == w + "." + [DigitChar(cents / 10 % 10), DigitChar(cents % 10)];
    forall i | 0 <= i < |f| ensures f[i] != ':' && f[i] != '\n' {
      if i < |w| {
        assert f[i] == w[i];
      }
    }
    assert f[|f| - 1] == DigitChar(cents % 10);
  }

  lemma LinesOfRender(intent: string, description: string, cents: nat, name: string)
    requires PlainSlot(intent) && PlainSlot(description) && PlainSlot(name)
    ensures Lines(Render(intent, description, cents, name)) == RenderLines(intent, description, cents, name)
  {
    Fixed2IsSlot(cents);
    var lines := RenderLines(intent, description, cents, name);
    forall k | 0 <= k < |lines| ensures '\n' !in lines[k] {
      var key := [INTENT_KEY, DESCRIPTION_KEY, VALUE_KEY, NAME_KEY][k];
      var slot := [intent, description, Fixed2(cents), name][k];
      assert lines[k] == key + " " + slot;
      assert '\n' !in key;
    }
    SplitJoin(lines, '\n');
  }

  /** Each key of the rendered reply is found on its own line. */
  lemma KeysOfRender(intent: string, description: string, cents: nat, name: string)
    ensures var lines := RenderLines(intent, description, cents, name);
      FirstWith(lines, INTENT_KEY, 0) && FirstWith(lines, DESCRIPTION_KEY, 1)
      && FirstWith(lines, VALUE_KEY, 2) && FirstWith(lines, NAME_KEY, 3)
  {
    var lines := RenderLines(intent, description, cents, name);
    assert lines[0][0] == 'i' && lines[1][0] == 'd' && lines[2][0] == 'v' && lines[3][0] == 'n';
  }

  /** Reading a reply written in the requested format gives back every slot. */
  lemma {:induction false} AnalyzeRender(intent: string, description: string, cents: nat, name: string)
    requires PlainSlot(intent) && PlainSlot(description) && PlainSlot(name)
    ensures Analyze(Render(intent, description, cents, name))
      == Analysis(intent, Some(description), Some(cents as real / 100.0), Some(name))
  {
    KeysAreKeys();
    Fixed2IsSlot(cents);
    var lines := RenderLines(intent, description, cents, name);
    LinesOfRender(intent, description, cents, name);
    KeysOfRender(intent, description, cents, name);
    FirstWithUnique(lines, INTENT_KEY, 0);
    FirstWithUnique(lines, DESCRIPTION_KEY, 1);
    FirstWithUnique(lines, VALUE_KEY, 2);
    FirstWithUnique(lines, NAME_KEY, 3);
    ReadSlot(INTENT_KEY, intent);
    ReadSlot(DESCRIPTION_KEY, description);
    ReadSlot(VALUE_KEY, Fixed2(cents));
    ReadSlot(NAME_KEY, name);
    ParseFixed2(cents);
  }
}
