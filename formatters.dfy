/**
 * `format_ES_error` (backend/maelstro/common/formatters.py): turns the
 * multi-line error message of the catalog's search engine into an ordered
 * dict. A line followed by a line that parses as JSON becomes the key of that
 * JSON value; any other line is kept under `info_<index>`, except a line that
 * is exactly ".".
 * HTML unescaping and JSON parsing are library calls; they are parameters here.
 */
module Formatters {
  import opened Wrappers
  import opened Strings
  import opened Dicts
  import opened Json

  /** `line.rstrip(".")`: every trailing dot removed. */
  function RStripDots(s: string): string
    decreases |s|
  {
    if s != [] && s[|s| - 1] == '.' then RStripDots(s[..|s| - 1]) else s
  }

  /** `rstrip(".")` keeps a prefix that does not end in a dot and removes only dots. */
  lemma {:induction false} RStripDotsRemovesTrailingDots(s: string)
    ensures RStripDots(s) <= s
    ensures RStripDots(s) == [] || RStripDots(s)[|RStripDots(s)| - 1] != '.'
    ensures forall i :: |RStripDots(s)| <= i < |s| ==> s[i] == '.'
    decreases |s|
  {
    if s != [] && s[|s| - 1] == '.' {
      RStripDotsRemovesTrailingDots(s[..|s| - 1]);
    }
  }

  /** `f"info_{i}"`. */
  function InfoKey(i: nat): string {
    "info_" + NatToString(i)
  }

  /** `json.loads(next_line.rstrip("."))`, when there is a next line. */
  function ParsedNext(lines: seq<string>, parse: string -> Option<Json>, i: nat): Option<Json> {
    if i + 1 < |lines| then parse(RStripDots(lines[i + 1])) else None
  }

  /** The loop from index `i` on, with the dict built so far. */
  function Pairing(lines: seq<string>, parse: string -> Option<Json>, i: nat, acc: Dict<string, Json>): Dict<string, Json>
    decreases |lines| - i
  {
    if i >= |lines| then acc
    else match ParsedNext(lines, parse, i)
      case Some(v) => Pairing(lines, parse, i + 2, Put(acc, lines[i], v))
      case None =>
        if lines[i] != "." then Pairing(lines, parse, i + 1, Put(acc, InfoKey(i), JStr(lines[i])))
        else Pairing(lines, parse, i + 1, acc)
  }

  /** The lines `format_ES_error` works on: the unescaped message split at newlines. */
  function MessageLines(error: map<string, string>, unescape: string -> string): seq<string> {
    Split(unescape(if "message" in error then error["message"] else ""), '\n')
  }

  /** `format_ES_error(error)`. */
  method FormatESError(error: map<string, string>, unescape: string -> string, parse: string -> Option<Json>)
    returns (result: Dict<string, Json>)
    ensures result == Pairing(MessageLines(error, unescape), parse, 0, Empty())
  {
    var lines := MessageLines(error, unescape);
    result := Empty();
    var i := 0;
    while i < |lines|
      invariant 0 <= i <= |lines|
      invariant Pairing(lines, parse, i, result) == Pairing(lines, parse, 0, Empty())
      decreases |lines| - i
    {
      var next := if i + 1 < |lines| then parse(RStripDots(lines[i + 1])) else None;
      if next.Some? {
        result := Put(result, lines[i], next.value);
        i := i + 2;
      } else {
        if lines[i] != "." {
          result := Put(result, InfoKey(i), JStr(lines[i]));
        }
        i := i + 1;
      }
    }
  }

  /** A missing message gives `{"info_0": ""}`. */
  lemma MissingMessage(error: map<string, string>, unescape: string -> string, parse: string -> Option<Json>)
    requires "message" !in error && unescape("") == ""
    ensures Pairing(MessageLines(error, unescape), parse, 0, Empty()) == RawDict(["info_0"], map["info_0" := JStr("")])
  {
    assert MessageLines(error, unescape) == [""];
    assert InfoKey(0) == "info_0";
  }

  /**
   * Every key comes either from a line that has a next line (so the last line
   * is never a key taken from the text), or is `info_<j>` for a line index `j`.
   */
  lemma {:induction false} KeysComeFromLines(lines: seq<string>, parse: string -> Option<Json>, i: nat, acc: Dict<string, Json>)
    requires forall k :: k in acc.entries ==>
      (exists j :: 0 <= j < |lines| - 1 && lines[j] == k) || (exists j :: 0 <= j < |lines| && k == InfoKey(j))
    ensures forall k :: k in Pairing(lines, parse, i, acc).entries ==>
      (exists j :: 0 <= j < |lines| - 1 && lines[j] == k) || (exists j :: 0 <= j < |lines| && k == InfoKey(j))
    decreases |lines| - i
  {
    if i < |lines| {
      match ParsedNext(lines, parse, i)
      case Some(v) =>
        KeysComeFromLines(lines, parse, i + 2, Put(acc, lines[i], v));
      case None =>
        if lines[i] != "." {
          KeysComeFromLines(lines, parse, i + 1, Put(acc, InfoKey(i), JStr(lines[i])));
        } else {
          KeysComeFromLines(lines, parse, i + 1, acc);
        }
    }
  }

  /** The `info_<j>` keys of the lines from `i` on that are not ".", in order. */
  function InfoKeysFrom(lines: seq<string>, i: nat): seq<string>
    decreases |lines| - i
  {
    if i >= |lines| then []
    else if lines[i] != "." then [InfoKey(i)] + InfoKeysFrom(lines, i + 1)
    else InfoKeysFrom(lines, i + 1)
  }

  lemma {:induction false} InfoKeysFromBelow(lines: seq<string>, i: nat, k: string)
    requires k in InfoKeysFrom(lines, i)
    ensures exists j :: i <= j < |lines| && k == InfoKey(j)
    decreases |lines| - i
  {
    if i < |lines| && !(lines[i] != "." && k == InfoKey(i)) {
      InfoKeysFromBelow(lines, i + 1, k);
    }
  }

  /** Distinct line indices give distinct `info_` keys. */
  lemma InfoKeyInjective(i: nat, j: nat)
    requires InfoKey(i) == InfoKey(j)
    ensures i == j
  {
    assert NatToString(i) == InfoKey(i)[5..];
    assert NatToString(j) == InfoKey(j)[5..];
    NatToStringInjective(i, j);
  }

  /**
   * Keeping line `i` under `info_<i>` appends that key, and the keys of the
   * later lines are still absent.
   */
  lemma InfoLineAdded(lines: seq<string>, i: nat, acc: Dict<string, Json>)
    requires i < |lines| && lines[i] != "."
    requires forall j :: i <= j < |lines| ==> InfoKey(j) !in acc.entries
    ensures Put(acc, InfoKey(i), JStr(lines[i])).keys + InfoKeysFrom(lines, i + 1) == acc.keys + InfoKeysFrom(lines, i)
    ensures forall j :: i + 1 <= j < |lines| ==> InfoKey(j) !in Put(acc, InfoKey(i), JStr(lines[i])).entries
  {
    var acc' := Put(acc, InfoKey(i), JStr(lines[i]));
    assert acc'.keys == acc.keys + [InfoKey(i)];
    assert InfoKeysFrom(lines, i) == [InfoKey(i)] + InfoKeysFrom(lines, i + 1);
    forall j | i + 1 <= j < |lines|
      ensures InfoKey(j) !in acc'.entries
    {
      if InfoKey(j) == InfoKey(i) {
        InfoKeyInjective(j, i);
      }
    }
  }

  /**
   * When no line after the current one parses as JSON, every line except
   * the "." lines is kept under its own `info_<index>` key, in line order.
   */
  lemma {:induction false} NoJsonKeepsEveryLine(lines: seq<string>, parse: string -> Option<Json>, i: nat, acc: Dict<string, Json>)
    requires forall j :: i <= j < |lines| ==> ParsedNext(lines, parse, j).None?
    requires forall j :: i <= j < |lines| ==> InfoKey(j) !in acc.entries
    ensures Pairing(lines, parse, i, acc).keys == acc.keys + InfoKeysFrom(lines, i)
    decreases |lines| - i
  {
    if i < |lines| {
      assert ParsedNext(lines, parse, i).None?;
      if lines[i] != "." {
        var acc' := Put(acc, InfoKey(i), JStr(lines[i]));
        assert Pairing(lines, parse, i, acc) == Pairing(lines, parse, i + 1, acc');
        InfoLineAdded(lines, i, acc);
        NoJsonKeepsEveryLine(lines, parse, i + 1, acc');
      } else {
        assert Pairing(lines, parse, i, acc) == Pairing(lines, parse, i + 1, acc);
        NoJsonKeepsEveryLine(lines, parse, i + 1, acc);
      }
    }
  }

  /** A line followed by a JSON line becomes that value's key; the loop skips both. */
  lemma PairingJsonStep(lines: seq<string>, parse: string -> Option<Json>, i: nat, acc: Dict<string, Json>)
    requires i < |lines| && ParsedNext(lines, parse, i).Some?
    ensures Pairing(lines, parse, i, acc) == Pairing(lines, parse, i + 2, Put(acc, lines[i], ParsedNext(lines, parse, i).value))
  {
  }

  /** A line not followed by a JSON line, other than ".", is kept under `info_<i>`. */
  lemma PairingInfoStep(lines: seq<string>, parse: string -> Option<Json>, i: nat, acc: Dict<string, Json>)
    requires i < |lines| && ParsedNext(lines, parse, i).None? && lines[i] != "."
    ensures Pairing(lines, parse, i, acc) == Pairing(lines, parse, i + 1, Put(acc, InfoKey(i), JStr(lines[i])))
  {
  }

  /**
   * Five lines laid out as a free line, then two lines each followed by a
   * JSON line: the free line is kept under `info_0`, then each of the two
   * lines becomes the key of the JSON value after it.
   */
  lemma FreeLineThenTwoPairs(lines: seq<string>, parse: string -> Option<Json>)
    requires |lines| == 5 && lines[0] != "."
    requires ParsedNext(lines, parse, 0).None?
    requires ParsedNext(lines, parse, 1).Some? && ParsedNext(lines, parse, 3).Some?
    ensures Pairing(lines, parse, 0, Empty()) ==
      Put(Put(Put(Empty(), InfoKey(0), JStr(lines[0])), lines[1], ParsedNext(lines, parse, 1).value),
          lines[3], ParsedNext(lines, parse, 3).value)
  {
    PairingInfoStep(lines, parse, 0, Empty());
    var d1 := Put(Empty(), InfoKey(0), JStr(lines[0]));
    PairingJsonStep(lines, parse, 1, d1);
    var d2 := Put(d1, lines[1], ParsedNext(lines, parse, 1).value);
    PairingJsonStep(lines, parse, 3, d2);
  }

  /**
   * The shape of the search engine's error: a free line, then "Request:" and
   * "Error:" each followed by a JSON line, gives the keys
   * `['info_0', 'Request:', 'Error:']` in that order.
   */
  lemma SearchErrorShape(parse: string -> Option<Json>, first: string, request: string, error: string)
    requires first != "."
    requires parse("Request:").None?
    requires parse(RStripDots(request)).Some? && parse(RStripDots(error)).Some?
    ensures Pairing([first, "Request:", request, "Error:", error], parse, 0, Empty()).keys
      == ["info_0", "Request:", "Error:"]
  {
    var lines := [first, "Request:", request, "Error:", error];
    assert ParsedNext(lines, parse, 0).None? by {
      assert RStripDots("Request:") == "Request:";
    }
    assert InfoKey(0) == "info_0";
    FreeLineThenTwoPairs(lines, parse);
    ThreeKeys("info_0", JStr(first), "Request:", parse(RStripDots(request)).value,
              "Error:", parse(RStripDots(error)).value);
  }
}
