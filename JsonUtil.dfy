/** JsonUtil: the hand-written JSON encoder for lists, movies and error
    envelopes, with its minimal string escaping. */
module JsonUtil {
  import opened Wrappers
  import opened Model
  import opened Text

  /** The values `toJson(Object)` distinguishes by runtime type; `OtherValue`
      stands for null and for any object that is not a list, a movie or an
      error envelope. */
  datatype JsonValue =
    | ListValue(items: seq<JsonValue>)
    | MovieValue(movie: Movie)
    | ErrorValue(error: ErrorResponse)
    | OtherValue

  // ---------------------------------------------------------------------
  // Escaping

  /** Every occurrence of `c` in `s` replaced by `replacement` (String.replace
      with a one-character target). */
  function ReplaceAll(s: string, c: char, replacement: string): (r: string)
    decreases |s|
  {
    if s == [] then []
    else (if s[0] == c then replacement else [s[0]]) + ReplaceAll(s[1..], c, replacement)
  }

  lemma {:induction false} ReplaceAllAppend(a: string, b: string, c: char, replacement: string)
    ensures ReplaceAll(a + b, c, replacement) == ReplaceAll(a, c, replacement) + ReplaceAll(b, c, replacement)
    decreases |a|
  {
    if a != [] {
      assert (a + b)[0] == a[0];
      assert (a + b)[1..] == a[1..] + b;
      ReplaceAllAppend(a[1..], b, c, replacement);
    } else {
      assert a + b == b;
    }
  }

  /** `escapeJson`: null becomes the empty string; otherwise quotes become \"
      and then newlines become \n. Backslashes are left as they are. */
  function EscapeJson(s: Option<string>): string {
    match s
    case None => ""
    case Some(t) => ReplaceAll(ReplaceAll(t, '"', "\\\""), '\n', "\\n")
  }

  /** The escape of one character, as the two replacements together apply
      it. */
  function EscapeChar(c: char): string {
    if c == '"' then "\\\"" else if c == '\n' then "\\n" else [c]
  }

  function Count(s: string, c: char): (n: nat)
    ensures n <= |s|
    decreases |s|
  {
    if s == [] then 0 else (if s[0] == c then 1 else 0) + Count(s[1..], c)
  }

  /** Character-by-character escaping, the reference the two-pass replacement
      is proved equal to. Its output holds no raw newline, never starts with a
      quote, has every quote right after a backslash and grows by one
      character per quote and per newline. */
  function EscapeEach(s: string): (r: string)
    ensures forall i :: 0 <= i < |r| ==> r[i] != '\n'
    ensures |r| > 0 ==> r[0] != '"'
    ensures forall i :: 0 <= i < |r| && r[i] == '"' ==> 0 < i && r[i - 1] == '\\'
    ensures |r| == |s| + Count(s, '"') + Count(s, '\n')
    decreases |s|
  {
    if s == [] then []
    else
      var head, rest := EscapeChar(s[0]), EscapeEach(s[1..]);
      assert forall i :: |head| <= i < |head| + |rest| ==> (head + rest)[i] == rest[i - |head|];
      head + rest
  }

  /** The two `String.replace` passes escape each character on its own. */
  lemma {:induction false} EscapeJsonIsCharwise(s: string)
    ensures EscapeJson(Some(s)) == EscapeEach(s)
    decreases |s|
  {
    if s != [] {
      var first := if s[0] == '"' then "\\\"" else [s[0]];
      var quoted := ReplaceAll(s, '"', "\\\"");
      assert quoted == first + ReplaceAll(s[1..], '"', "\\\"");
      ReplaceAllAppend(first, ReplaceAll(s[1..], '"', "\\\""), '\n', "\\n");
      EscapeJsonIsCharwise(s[1..]);
      if s[0] == '"' {
        assert first == ['\\'] + ['"'];
        ReplaceAllAppend(['\\'], ['"'], '\n', "\\n");
        assert ReplaceAll(['\\'], '\n', "\\n") == ['\\'] + ReplaceAll([], '\n', "\\n");
        assert ReplaceAll(['"'], '\n', "\\n") == ['"'] + ReplaceAll([], '\n', "\\n");
      } else {
        assert ReplaceAll(first, '\n', "\\n") == EscapeChar(s[0]) + ReplaceAll([], '\n', "\\n");
      }
    }
  }

  /** The properties of `escapeJson` output: no raw newline, every quote
      escaped, length |s| + #quotes + #newlines; null gives "". */
  lemma EscapeJsonProperties(s: Option<string>)
    ensures s.None? ==> EscapeJson(s) == ""
    ensures forall i :: 0 <= i < |EscapeJson(s)| ==> EscapeJson(s)[i] != '\n'
    ensures forall i :: 0 <= i < |EscapeJson(s)| && EscapeJson(s)[i] == '"' ==> 0 < i && EscapeJson(s)[i - 1] == '\\'
    ensures s.Some? ==> |EscapeJson(s)| == |s.value| + Count(s.value, '"') + Count(s.value, '\n')
  {
    if s.Some? {
      EscapeJsonIsCharwise(s.value);
    }
  }

  /** Text with no quote and no newline, backslashes included, is left as it
      is. */
  lemma {:induction false} EscapeJsonIdentity(s: string)
    requires forall i :: 0 <= i < |s| ==> s[i] != '"' && s[i] != '\n'
    ensures EscapeJson(Some(s)) == s
    decreases |s|
  {
    EscapeJsonIsCharwise(s);
    EscapeEachIdentity(s);
  }

  lemma {:induction false} EscapeEachIdentity(s: string)
    requires forall i :: 0 <= i < |s| ==> s[i] != '"' && s[i] != '\n'
    ensures EscapeEach(s) == s
    decreases |s|
  {
    if s != [] {
      EscapeEachIdentity(s[1..]);
      assert s == [s[0]] + s[1..];
    }
  }

  // ---------------------------------------------------------------------
  // Objects

  /** A field of a flat JSON object: a number, or a string that is escaped and
      quoted. */
  datatype Field = NumberField(key: string, number: int) | StringField(key: string, text: Option<string>)

  function FieldJson(f: Field): string {
    "\"" + f.key + "\":" +
    match f
    case NumberField(_, n) => IntToDecimal(n)
    case StringField(_, t) => "\"" + EscapeJson(t) + "\""
  }

  /** `parts` joined with a single comma between neighbours. */
  function Join(parts: seq<string>): string
    decreases |parts|
  {
    if |parts| == 0 then ""
    else if |parts| == 1 then parts[0]
    else Join(parts[..|parts| - 1]) + "," + parts[|parts| - 1]
  }

  /** Joining two non-empty runs puts exactly one comma between them. */
  lemma {:induction false} JoinAppend(xs: seq<string>, ys: seq<string>)
    requires xs != [] && ys != []
    ensures Join(xs + ys) == Join(xs) + "," + Join(ys)
    decreases |ys|
  {
    if |ys| == 1 {
      assert (xs + ys)[..|xs + ys| - 1] == xs;
    } else {
      var init := ys[..|ys| - 1];
      assert (xs + ys)[..|xs + ys| - 1] == xs + init;
      JoinAppend(xs, init);
    }
  }

  /** The encodings of `fields`, in order. */
  function FieldsJson(fields: seq<Field>): (r: seq<string>)
    ensures |r| == |fields|
    ensures forall i :: 0 <= i < |fields| ==> r[i] == FieldJson(fields[i])
    decreases |fields|
  {
    if fields == [] then [] else [FieldJson(fields[0])] + FieldsJson(fields[1..])
  }

  /** A flat JSON object: its fields' encodings joined by commas inside
      braces. */
  function ObjectJson(fields: seq<Field>): string {
    "{" + Join(FieldsJson(fields)) + "}"
  }

  lemma JoinThree(a: string, b: string, c: string)
    ensures Join([a, b, c]) == a + "," + b + "," + c
  {
    assert [a, b][..1] == [a];
    assert Join([a, b]) == Join([a]) + "," + b;
    assert [a, b, c][..2] == [a, b];
    assert Join([a, b, c]) == Join([a, b]) + "," + c;
  }

  lemma JoinFour(a: string, b: string, c: string, d: string)
    ensures Join([a, b, c, d]) == a + "," + b + "," + c + "," + d
  {
    assert [a, b, c, d][..3] == [a, b, c];
    JoinThree(a, b, c);
  }

  /** The fields `movieToJson` writes, in order; duration is not among them. */
  function MovieFields(m: Movie): seq<Field> {
    [NumberField("id", m.id), StringField("title", m.title),
     NumberField("year", m.year), StringField("director", m.director)]
  }

  function ErrorFields(e: ErrorResponse): seq<Field> {
    [StringField("error", e.error), StringField("message", e.message), NumberField("status", e.status)]
  }

  /** `movieToJson`: the String.format template with the id and year as
      decimals and the title and director escaped. */
  function MovieToJson(m: Movie): string {
    "{\"id\":" + IntToDecimal(m.id) +
    ",\"title\":\"" + EscapeJson(m.title) +
    "\",\"year\":" + IntToDecimal(m.year) +
    ",\"director\":\"" + EscapeJson(m.director) + "\"}"
  }

  /** `errorToJson`: the String.format template of the envelope. */
  function ErrorToJson(e: ErrorResponse): string {
    "{\"error\":\"" + EscapeJson(e.error) +
    "\",\"message\":\"" + EscapeJson(e.message) +
    "\",\"status\":" + IntToDecimal(e.status) + "}"
  }

  /** The movie template is the JSON object with keys id, title, year and
      director in that order, and the duration never reaches the output. */
  lemma MovieToJsonIsObject(m: Movie, duration: int)
    ensures MovieToJson(m) == ObjectJson(MovieFields(m))
    ensures MovieToJson(m.(durationMinutes := duration)) == MovieToJson(m)
    ensures forall i :: 0 <= i < |MovieFields(m)| ==> MovieFields(m)[i].key != "durationMinutes"
  {
    MovieObjectSpelled(m);
    MovieTemplateSpelled(m);
  }

  /** The movie object with each field's encoding written out. */
  ghost function MovieText(m: Movie): string {
    "{" + (("\"id\":" + IntToDecimal(m.id)) + "," +
           ("\"title\":\"" + EscapeJson(m.title) + "\"") + "," +
           ("\"year\":" + IntToDecimal(m.year)) + "," +
           ("\"director\":\"" + EscapeJson(m.director) + "\"")) + "}"
  }

  lemma MovieObjectSpelled(m: Movie)
    ensures ObjectJson(MovieFields(m)) == MovieText(m)
  {
    var fs := MovieFields(m);
    var f0, f1, f2, f3 := FieldJson(fs[0]), FieldJson(fs[1]), FieldJson(fs[2]), FieldJson(fs[3]);
    assert FieldsJson(fs) == [f0, f1, f2, f3];
    JoinFour(f0, f1, f2, f3);
    assert f0 == "\"id\":" + IntToDecimal(m.id);
    assert f1 == "\"title\":\"" + EscapeJson(m.title) + "\"";
    assert f2 == "\"year\":" + IntToDecimal(m.year);
    assert f3 == "\"director\":\"" + EscapeJson(m.director) + "\"";
  }

  lemma MovieTemplateSpelled(m: Movie)
    ensures MovieToJson(m) == MovieText(m)
  {
    var d0, e1, d2, e3 := IntToDecimal(m.id), EscapeJson(m.title), IntToDecimal(m.year), EscapeJson(m.director);
    Regroup4("{", "\"id\":", d0, ",", "\"title\":\"", e1, "\"", ",", "\"year\":", d2, ",", "\"director\":\"", e3, "\"", "}");
    assert "{" + "\"id\":" == "{\"id\":";
    assert "," + "\"title\":\"" == ",\"title\":\"";
    assert "\"" + "," + "\"year\":" == "\",\"year\":";
    assert "," + "\"director\":\"" == ",\"director\":\"";
    assert "\"" + "}" == "\"}";
  }

  /** The error template is the JSON object with keys error, message and
      status in that order. */
  lemma ErrorToJsonIsObject(e: ErrorResponse)
    ensures ErrorToJson(e) == ObjectJson(ErrorFields(e))
  {
    ErrorObjectSpelled(e);
    ErrorTemplateSpelled(e);
  }

  /** The error object with each field's encoding written out. */
  ghost function ErrorText(e: ErrorResponse): string {
    "{" + (("\"error\":\"" + EscapeJson(e.error) + "\"") + "," +
           ("\"message\":\"" + EscapeJson(e.message) + "\"") + "," +
           ("\"status\":" + IntToDecimal(e.status))) + "}"
  }

  lemma ErrorObjectSpelled(e: ErrorResponse)
    ensures ObjectJson(ErrorFields(e)) == ErrorText(e)
  {
    var fs := ErrorFields(e);
    var f0, f1, f2 := FieldJson(fs[0]), FieldJson(fs[1]), FieldJson(fs[2]);
    assert FieldsJson(fs) == [f0, f1, f2];
    JoinThree(f0, f1, f2);
    assert f0 == "\"error\":\"" + EscapeJson(e.error) + "\"";
    assert f1 == "\"message\":\"" + EscapeJson(e.message) + "\"";
    assert f2 == "\"status\":" + IntToDecimal(e.status);
  }

  lemma ErrorTemplateSpelled(e: ErrorResponse)
    ensures ErrorToJson(e) == ErrorText(e)
  {
    var e0, e1, d := EscapeJson(e.error), EscapeJson(e.message), IntToDecimal(e.status);
    Regroup3("{", "\"error\":\"", e0, "\"", ",", "\"message\":\"", e1, "\"", ",", "\"status\":", d, "}");
    assert "{" + "\"error\":\"" == "{\"error\":\"";
    assert "\"" + "," + "\"message\":\"" == "\",\"message\":\"";
    assert "\"" + "," + "\"status\":" == "\",\"status\":";
  }

  lemma Regroup4(open: string, k0: string, v0: string, c0: string, k1: string, v1: string, q1: string,
                 c1: string, k2: string, v2: string, c2: string, k3: string, v3: string, q3: string, close: string)
    ensures open + ((k0 + v0) + c0 + (k1 + v1 + q1) + c1 + (k2 + v2) + c2 + (k3 + v3 + q3)) + close
         == (open + k0) + v0 + (c0 + k1) + v1 + (q1 + c1 + k2) + v2 + (c2 + k3) + v3 + (q3 + close)
  {
  }

  lemma Regroup3(open: string, k0: string, v0: string, q0: string, c0: string, k1: string, v1: string, q1: string,
                 c1: string, k2: string, v2: string, close: string)
    ensures open + ((k0 + v0 + q0) + c0 + (k1 + v1 + q1) + c1 + (k2 + v2)) + close
         == (open + k0) + v0 + (q0 + c0 + k1) + v1 + (q1 + c1 + k2) + v2 + close
  {
  }

  // ---------------------------------------------------------------------
  // Dispatch and lists

  /** `toJson`: dispatch on the kind of value; a list is "[]" when empty and
      otherwise its elements' encodings joined by commas inside brackets. */
  function ToJson(v: JsonValue): string
    decreases v
  {
    match v
    case ListValue(items) =>
      if |items| == 0 then "[]" else "[" + Join(Encodings(items)) + "]"
    case MovieValue(m) => MovieToJson(m)
    case ErrorValue(e) => ErrorToJson(e)
    case OtherValue => "{}"
  }

  /** The encodings of a list's elements, in order. */
  function Encodings(items: seq<JsonValue>): (r: seq<string>)
    ensures |r| == |items|
    ensures forall i :: 0 <= i < |items| ==> r[i] == ToJson(items[i])
    decreases items
  {
    if items == [] then [] else [ToJson(items[0])] + Encodings(items[1..])
  }

  /** `listToJson`: the StringBuilder loop appends each element's encoding and
      a comma after every element but the last. */
  method ListToJson(list: seq<JsonValue>) returns (json: string)
    ensures json == ToJson(ListValue(list))
    ensures |list| == 0 ==> json == "[]"
  {
    if |list| == 0 {
      return "[]";
    }
    var parts := Encodings(list);
    json := "[";
    var i := 0;
    while i < |list|
      invariant 0 <= i <= |list|
      invariant i == 0 ==> json == "["
      invariant 0 < i ==> json == "[" + Join(parts[..i]) + (if i < |list| then "," else "")
    {
      var element := ToJson(list[i]);
      json := json + element;
      if i < |list| - 1 {
        json := json + ",";
      }
      assert parts[..i + 1][..i] == parts[..i];
      if i > 0 {
        assert Join(parts[..i + 1]) == Join(parts[..i]) + "," + element;
        AppendAfterComma("[", Join(parts[..i]), element, if i + 1 < |list| then "," else "");
      }
      i := i + 1;
    }
    json := json + "]";
    assert parts[..i] == parts;
  }

  /** `toJson` by kind: anything that is not a list, a movie or an error is
      "{}"; the empty list is "[]" and a one-element list is that element in
      brackets; movies and errors are their flat JSON objects. */
  lemma ToJsonDispatch(v: JsonValue, m: Movie, e: ErrorResponse)
    ensures ToJson(OtherValue) == "{}"
    ensures ToJson(ListValue([])) == "[]"
    ensures ToJson(ListValue([v])) == "[" + ToJson(v) + "]"
    ensures ToJson(MovieValue(m)) == ObjectJson(MovieFields(m))
    ensures ToJson(ErrorValue(e)) == ObjectJson(ErrorFields(e))
  {
    MovieToJsonIsObject(m, m.durationMinutes);
    ErrorToJsonIsObject(e);
    assert Encodings([v]) == [ToJson(v)];
  }

  lemma AppendAfterComma(open: string, done: string, element: string, sep: string)
    ensures open + done + "," + element + sep == open + (done + "," + element) + sep
  {
  }

  /** An encoded list is "[" + the first element + "," + the encoding of the
      rest without its brackets: the elements appear in list order, one comma
      between neighbours. */
  lemma ListJsonUnfolds(first: JsonValue, rest: seq<JsonValue>)
    requires rest != []
    ensures ToJson(ListValue([first] + rest)) ==
      "[" + ToJson(first) + "," + Join(Encodings(rest)) + "]"
  {
    var items := [first] + rest;
    assert items[1..] == rest;
    assert Encodings(items) == [ToJson(first)] + Encodings(rest);
    JoinAppend([ToJson(first)], Encodings(rest));
    AppendAfterComma("[", ToJson(first), Join(Encodings(rest)), "]");
  }
}
