/** Images travel as `data:<mime>;base64,<payload>` strings, the base64 form of the
    `data` URL scheme (section 3 of RFC 2397). This module holds the one way such a
    string is built (services/geminiService.ts:103) and the two ways it is taken
    apart: the regular expression of services/geminiService.ts:73 and the `split`
    calls of services/geminiService.ts:21-22. */
module DataUrl {
  import opened Wrappers
  import opened Sequences

  const Scheme: string := "data:"
  const Base64Marker: string := ";base64,"

  /** The template string `data:${mimeType};base64,${data}`. */
  function Format(mime: string, data: string): string
  {
    Scheme + mime + Base64Marker + data
  }

  /** The characters JavaScript's `.` refuses to match. */
  predicate IsLineTerminator(c: char)
  {
    c == '\n' || c == '\r' || c == '\U{2028}' || c == '\U{2029}'
  }

  /** Position of the first `c` in `s`, or |s| when `c` does not occur. */
  function IndexOf(s: string, c: char): (k: nat)
    ensures k <= |s|
    ensures k < |s| ==> s[k] == c
  {
    if s == [] then 0
    else if s[0] == c then 0
    else 1 + IndexOf(s[1..], c)
  }

  /** No `c` comes before `IndexOf(s, c)`, which is |s| exactly when `c` is absent. */
  lemma {:induction false} IndexOfFirst(s: string, c: char)
    ensures forall j :: 0 <= j < IndexOf(s, c) ==> s[j] != c
    ensures IndexOf(s, c) == |s| <==> c !in s
  {
    if s != [] && s[0] != c {
      IndexOfFirst(s[1..], c);
      assert forall j :: 1 <= j < |s| ==> s[j] == s[1..][j - 1];
      assert s == [s[0]] + s[1..];
    }
  }

  /** `s.match(/^data:([^;]+);base64,(.+)$/)`: Some((group 1, group 2)) on a match,
      None where `match` returns null. Group 1 is a run of non-';' characters, so it
      ends at the first ';'; group 2 runs to the end of the string and, like `.`,
      admits no line terminator. */
  function Match(s: string): Option<(string, string)>
  {
    if !(Scheme <= s) then None
    else
      var rest := s[|Scheme|..];
      var k := IndexOf(rest, ';');
      if k == 0 || !(Base64Marker <= rest[k..]) then None
      else
        var payload := rest[k + |Base64Marker|..];
        if payload == [] || HasLineTerminator(payload) then None
        else Some((rest[..k], payload))
  }

  predicate HasLineTerminator(s: string)
  {
    exists j :: 0 <= j < |s| && IsLineTerminator(s[j])
  }

  /** What the pattern asks of its two groups. */
  predicate Matchable(mime: string, data: string)
  {
    && mime != []
    && ';' !in mime
    && data != []
    && !HasLineTerminator(data)
  }

  /** `IndexOf` is pinned down by a hit with no earlier one. */
  lemma {:induction false} IndexOfAt(s: string, c: char, k: nat)
    requires k < |s| && s[k] == c
    requires forall j :: 0 <= j < k ==> s[j] != c
    ensures IndexOf(s, c) == k
  {
    IndexOfFirst(s, c);
  }

  /** A string the pattern accepts is exactly the formatting of its two groups,
      and those groups are of the shape the pattern asks for. */
  lemma {:induction false} MatchedIsFormatted(s: string, mime: string, data: string)
    requires Match(s) == Some((mime, data))
    ensures s == Format(mime, data)
    ensures Matchable(mime, data)
  {
    MatchedGroups(s, mime, data);
    PrefixThenRest(Scheme, s);
    Assoc4(Scheme, mime, Base64Marker, data);
  }

  /** What follows the scheme in an accepted string is group 1, the marker, then
      group 2, and group 1 holds no ';'. */
  lemma {:induction false} MatchedGroups(s: string, mime: string, data: string)
    requires Match(s) == Some((mime, data))
    ensures Scheme <= s
    ensures s[|Scheme|..] == mime + Base64Marker + data
    ensures Matchable(mime, data)
  {
    var rest := s[|Scheme|..];
    var k := IndexOf(rest, ';');
    IndexOfFirst(rest, ';');
    assert k != 0 && Base64Marker <= rest[k..];
    assert mime == rest[..k] && data == rest[k + |Base64Marker|..];
    PrefixThenRest(Base64Marker, rest[k..]);
    assert rest[k..][|Base64Marker|..] == data;
    Halves(rest, k);
    Assoc3(mime, Base64Marker, data);
    assert forall j :: 0 <= j < |mime| ==> mime[j] != ';' by {
      forall j | 0 <= j < |mime| ensures mime[j] != ';' { assert mime[j] == rest[j]; }
    }
  }

  /** Formatting then matching gives back exactly the mime type and the payload,
      and does so only when both are of the shape the pattern accepts. */
  lemma {:induction false} MatchFormat(mime: string, data: string)
    ensures Match(Format(mime, data)) == Some((mime, data)) <==> Matchable(mime, data)
  {
    var s := Format(mime, data);
    if Matchable(mime, data) {
      assert Scheme <= s;
      var rest := s[|Scheme|..];
      assert rest == mime + Base64Marker + data;
      assert forall j :: 0 <= j < |mime| ==> rest[j] != ';' by {
        forall j | 0 <= j < |mime| ensures rest[j] != ';' { assert rest[j] == mime[j]; }
      }
      IndexOfAt(rest, ';', |mime|);
      assert rest[|mime|..] == Base64Marker + data;
      assert rest[..|mime|] == mime;
      assert rest[|mime| + |Base64Marker|..] == data;
    } else if Match(s) == Some((mime, data)) {
      MatchedIsFormatted(s, mime, data);
    }
  }

  /** The fields `Join` glues back together with `sep`. */
  function Join(fields: seq<string>, sep: char): string
  {
    if |fields| == 0 then []
    else if |fields| == 1 then fields[0]
    else fields[0] + [sep] + Join(fields[1..], sep)
  }

  /** `s.split(sep)` for a one-character separator: the fields between separators. */
  function Split(s: string, sep: char): (fields: seq<string>)
    ensures |fields| >= 1
    decreases |s|
  {
    var k := IndexOf(s, sep);
    if k == |s| then [s] else [s[..k]] + Split(s[k + 1..], sep)
  }

  /** No field of a split holds the separator. */
  lemma {:induction false} SplitFieldsClean(s: string, sep: char)
    ensures forall j :: 0 <= j < |Split(s, sep)| ==> sep !in Split(s, sep)[j]
    decreases |s|
  {
    var k := IndexOf(s, sep);
    IndexOfFirst(s, sep);
    if k < |s| {
      var tail := Split(s[k + 1..], sep);
      SplitFieldsClean(s[k + 1..], sep);
      var fields := [s[..k]] + tail;
      assert Split(s, sep) == fields;
      assert sep !in s[..k] by {
        forall j | 0 <= j < k ensures s[..k][j] != sep { }
      }
      forall j | 1 <= j < |fields| ensures sep !in fields[j] {
        assert fields[j] == tail[j - 1];
      }
    }
  }

  /** Joining the fields of a split gives back the string. */
  lemma {:induction false} JoinSplit(s: string, sep: char)
    ensures Join(Split(s, sep), sep) == s
    decreases |s|
  {
    var k := IndexOf(s, sep);
    if k < |s| {
      var tail := Split(s[k + 1..], sep);
      JoinSplit(s[k + 1..], sep);
      var fields := [s[..k]] + tail;
      assert Split(s, sep) == fields;
      assert fields[1..] == tail;
      assert s == s[..k] + [sep] + s[k + 1..];
    }
  }

  /** Splitting undoes joining, whenever no field holds the separator. */
  lemma {:induction false} SplitJoin(fields: seq<string>, sep: char)
    requires |fields| >= 1
    requires forall j :: 0 <= j < |fields| ==> sep !in fields[j]
    ensures Split(Join(fields, sep), sep) == fields
  {
    if |fields| == 1 {
      IndexOfFirst(fields[0], sep);
    } else {
      var tail := fields[1..];
      assert forall j :: 0 <= j < |tail| ==> sep !in tail[j] by {
        forall j | 0 <= j < |tail| ensures sep !in tail[j] { assert tail[j] == fields[j + 1]; }
      }
      SplitJoin(tail, sep);
      JoinHead(fields, sep);
    }
  }

  /** The first separator of a join of two or more fields ends the first field. */
  lemma {:induction false} JoinHead(fields: seq<string>, sep: char)
    requires |fields| >= 2 && sep !in fields[0]
    ensures var s := Join(fields, sep);
      && IndexOf(s, sep) == |fields[0]|
      && s[..|fields[0]|] == fields[0]
      && s[|fields[0]| + 1..] == Join(fields[1..], sep)
  {
    var s := Join(fields, sep);
    assert s == fields[0] + [sep] + Join(fields[1..], sep);
    assert s[|fields[0]|] == sep;
    assert forall j :: 0 <= j < |fields[0]| ==> s[j] != sep by {
      forall j | 0 <= j < |fields[0]| ensures s[j] != sep { assert s[j] == fields[0][j]; }
    }
    IndexOfAt(s, sep, |fields[0]|);
  }

  /** `s.split(sep)[i]`: None where JavaScript yields `undefined`. */
  function Field(s: string, sep: char, i: nat): Option<string>
  {
    var fields := Split(s, sep);
    if i < |fields| then Some(fields[i]) else None
  }

  /** `imgBase64.split(';')[0].split(':')[1]`, the mime type read at services/geminiService.ts:22. */
  function SplitMime(url: string): Option<string>
  {
    Field(Split(url, ';')[0], ':', 1)
  }

  /** `imgBase64.split(',')[1]`, the payload read at services/geminiService.ts:21. */
  function SplitData(url: string): Option<string>
  {
    Field(url, ',', 1)
  }

  /** The first field of a split is everything before the first separator. */
  lemma {:induction false} SplitFirst(s: string, sep: char, k: nat)
    requires k < |s| && s[k] == sep
    requires forall j :: 0 <= j < k ==> s[j] != sep
    ensures Split(s, sep)[0] == s[..k]
  {
    IndexOfAt(s, sep, k);
  }

  /** Splitting on ';' then on ':' recovers the mime type of a formatted URL,
      provided it holds neither ':' nor ';'. */
  lemma {:induction false} SplitMimeFormat(mime: string, data: string)
    requires ':' !in mime && ';' !in mime
    ensures SplitMime(Format(mime, data)) == Some(mime)
  {
    var s := Format(mime, data);
    var head := Scheme + mime;
    HeadBeforeMarker(mime, data);
    assert Split(s, ';')[0] == head;
    assert head == Join(["data", mime], ':');
    SplitJoin(["data", mime], ':');
    assert Split(head, ':') == ["data", mime];
  }

  /** The text before the first ';' of a formatted URL is the scheme and the mime type. */
  lemma {:induction false} HeadBeforeMarker(mime: string, data: string)
    requires ';' !in mime
    ensures Split(Format(mime, data), ';')[0] == Scheme + mime
  {
    var s := Format(mime, data);
    var head := Scheme + mime;
    assert s == head + Base64Marker + data;
    assert forall j :: 0 <= j < |head| ==> s[j] != ';' by {
      forall j | 0 <= j < |head| ensures s[j] != ';' {
        assert s[j] == head[j];
        if j >= |Scheme| { assert head[j] == mime[j - |Scheme|]; }
      }
    }
    assert s[|head|] == ';';
    SplitFirst(s, ';', |head|);
    assert s[..|head|] == head;
  }

  /** Splitting on ',' recovers the payload of a formatted URL, provided neither
      the mime type nor the payload holds a ','. */
  lemma {:induction false} SplitDataFormat(mime: string, data: string)
    requires ',' !in mime && ',' !in data
    ensures SplitData(Format(mime, data)) == Some(data)
  {
    var s := Format(mime, data);
    var left := Scheme + mime + ";base64";
    assert forall j :: 0 <= j < |left| ==> left[j] != ',' by {
      forall j | 0 <= j < |left| ensures left[j] != ',' {
        if |Scheme| <= j < |Scheme| + |mime| { assert left[j] == mime[j - |Scheme|]; }
      }
    }
    assert ',' !in left;
    assert s == Join([left, data], ',');
    SplitJoin([left, data], ',');
  }

  /** Where both readings apply, they agree: a URL the pattern accepts, with no
      ':' or ',' in its mime type and no ',' in its payload, yields the same mime
      type and payload under the split-based reading. */
  lemma {:induction false} ParsersAgree(s: string, mime: string, data: string)
    requires Match(s) == Some((mime, data))
    requires ':' !in mime && ',' !in mime && ',' !in data
    ensures SplitMime(s) == Some(mime) && SplitData(s) == Some(data)
  {
    MatchedIsFormatted(s, mime, data);
    SplitMimeFormat(mime, data);
    SplitDataFormat(mime, data);
  }
}
