/**
 * The table that turns a MySQL driver error code (errorInfo[1] of a
 * QueryException) and its detail text (errorInfo[2]) into a translation
 * request, and the extractor for "Duplicate entry 'value' for key 'field'".
 */
module MysqlErrors {
  import opened Wrappers

  /** The message keys of the `state::mysql` and `state::generic` translation groups. */
  datatype MessageKey =
    | IntegrityConstraintViolation
    | CannotDeleteForeignKeyConstraintFails
    | CannotAddForeignKeyConstraintFails
    | DuplicateEntry
    | DataTooLongForColumn
    | ErrorCode404
    | ErrorCode409
    | ErrorCode500
    | ErrorCode503

  /** One `trans()` call: a message key and its placeholder values. */
  datatype Translation = Translation(key: MessageKey, params: seq<(string, string)>)

  const QUOTE: char := '\''

  predicate QuoteFree(s: string) {
    QUOTE !in s
  }

  /** The parts of `s` between its apostrophes, in order: one more part than there are apostrophes. */
  function Pieces(s: string): (r: seq<string>)
    ensures |r| >= 1
  {
    if s == [] then [[]]
    else
      var rest := Pieces(s[1..]);
      if s[0] == QUOTE then [[]] + rest else [[s[0]] + rest[0]] + rest[1..]
  }

  /** Glues parts back together with an apostrophe between neighbours. */
  function Join(ps: seq<string>): string
    requires |ps| >= 1
  {
    if |ps| == 1 then ps[0] else ps[0] + [QUOTE] + Join(ps[1..])
  }

  /** A part with no apostrophe is a single piece. */
  lemma {:induction false} PiecesOfQuoteFree(p: string)
    requires QuoteFree(p)
    ensures Pieces(p) == [p]
  {
    if p != [] {
      PiecesOfQuoteFree(p[1..]);
      assert [p[0]] + p[1..] == p;
    }
  }

  /** An apostrophe-free part followed by an apostrophe splits off as the first piece. */
  lemma {:induction false} PiecesAfterPart(p: string, s: string)
    requires QuoteFree(p)
    ensures Pieces(p + [QUOTE] + s) == [p] + Pieces(s)
  {
    if p == [] {
      assert p + [QUOTE] + s == [QUOTE] + s;
      assert ([QUOTE] + s)[1..] == s;
    } else {
      assert (p + [QUOTE] + s)[1..] == p[1..] + [QUOTE] + s;
      PiecesAfterPart(p[1..], s);
      assert [p[0]] + p[1..] == p;
    }
  }

  /** Splitting undoes gluing, for apostrophe-free parts. */
  lemma {:induction false} PiecesOfJoin(ps: seq<string>)
    requires |ps| >= 1
    requires forall i :: 0 <= i < |ps| ==> QuoteFree(ps[i])
    ensures Pieces(Join(ps)) == ps
  {
    if |ps| == 1 {
      PiecesOfQuoteFree(ps[0]);
    } else {
      PiecesAfterPart(ps[0], Join(ps[1..]));
      PiecesOfJoin(ps[1..]);
    }
  }

  /** Gluing undoes splitting, and every piece is apostrophe-free. */
  lemma {:induction false} JoinOfPieces(s: string)
    ensures Join(Pieces(s)) == s
    ensures forall i :: 0 <= i < |Pieces(s)| ==> QuoteFree(Pieces(s)[i])
  {
    if s != [] {
      JoinOfPieces(s[1..]);
      var rest := Pieces(s[1..]);
      if s[0] == QUOTE {
        assert Pieces(s)[1..] == rest;
        assert s == [] + [QUOTE] + s[1..];
      } else {
        var ps := Pieces(s);
        assert ps[0] == [s[0]] + rest[0];
        assert ps[1..] == rest[1..];
        if |rest| == 1 {
          assert s == [s[0]] + s[1..];
        } else {
          assert Join(rest) == rest[0] + [QUOTE] + Join(rest[1..]);
          assert s == [s[0]] + s[1..];
        }
        forall i | 0 <= i < |ps| ensures QuoteFree(ps[i]) {
          if i > 0 {
            assert ps[i] == rest[i];
          }
        }
      }
    }
  }

  /** `value'...'field'` text as MySQL writes it: four apostrophes, then nothing or one final newline. */
  function DuplicateText(a: string, value: string, c: string, field: string, tail: string): string {
    a + [QUOTE] + value + [QUOTE] + c + [QUOTE] + field + [QUOTE] + tail
  }

  predicate DuplicateParts(a: string, value: string, c: string, field: string, tail: string) {
    && QuoteFree(a) && QuoteFree(value) && QuoteFree(c) && QuoteFree(field)
    && (tail == "" || tail == "\n")
  }

  /**
   * The pattern /^[^']*'([^']*)'[^']*'([^']*)'$/ applied to `detail`: it
   * matches when the text holds exactly four apostrophes and the fourth is the
   * last character (or is followed only by the final newline PCRE's `$`
   * allows); the groups are the texts between the 1st and 2nd and between the
   * 3rd and 4th apostrophes.
   */
  function DuplicateEntryMatch(detail: string): Option<(string, string)> {
    var p := Pieces(detail);
    if |p| == 5 && (p[4] == "" || p[4] == "\n") then Some((p[1], p[3])) else None
  }

  lemma JoinFive(a: string, value: string, c: string, field: string, tail: string)
    ensures Join([a, value, c, field, tail]) == DuplicateText(a, value, c, field, tail)
  {
    assert [a, value, c, field, tail][1..] == [value, c, field, tail];
    assert [value, c, field, tail][1..] == [c, field, tail];
    assert [c, field, tail][1..] == [field, tail];
    assert [field, tail][1..] == [tail];
    var j4 := field + [QUOTE] + tail;
    assert Join([field, tail]) == j4;
    var j3 := c + [QUOTE] + j4;
    assert Join([c, field, tail]) == j3;
    var j2 := value + [QUOTE] + j3;
    assert Join([value, c, field, tail]) == j2;
    assert Join([a, value, c, field, tail]) == a + [QUOTE] + j2;
  }

  /** Every text of the duplicate-entry shape matches, with its value and field as the groups. */
  lemma DuplicateEntryComplete(a: string, value: string, c: string, field: string, tail: string)
    requires DuplicateParts(a, value, c, field, tail)
    ensures DuplicateEntryMatch(DuplicateText(a, value, c, field, tail)) == Some((value, field))
  {
    var ps := [a, value, c, field, tail];
    JoinFive(a, value, c, field, tail);
    PiecesOfJoin(ps);
  }

  /** Only texts of the duplicate-entry shape match, and the groups are their value and field. */
  lemma DuplicateEntrySound(detail: string)
    requires DuplicateEntryMatch(detail).Some?
    ensures var (value, field) := DuplicateEntryMatch(detail).value;
      exists a, c, tail :: DuplicateParts(a, value, c, field, tail) && detail == DuplicateText(a, value, c, field, tail)
  {
    var p := Pieces(detail);
    JoinOfPieces(detail);
    assert p == [p[0], p[1], p[2], p[3], p[4]];
    JoinFive(p[0], p[1], p[2], p[3], p[4]);
    assert DuplicateParts(p[0], p[1], p[2], p[3], p[4]);
  }

  /**
   * The MySQL error table: codes 1364/1048, 1217/1451, 1216/1452, 1062/1586
   * and 1406 have their own messages (the last two with a generic fallback
   * when the detail text does not match); every other code gets the generic
   * 503 message. `column` is the extractor for the 1406 detail text.
   */
  function QueryTranslation(code: int, detail: string, column: string -> Option<string>): (r: Translation)
    ensures r.key == IntegrityConstraintViolation <==> code == 1364 || code == 1048
    ensures r.key == IntegrityConstraintViolation ==> r.params == [("msg", detail)]
    ensures r.key == CannotDeleteForeignKeyConstraintFails <==> code == 1217 || code == 1451
    ensures r.key == CannotAddForeignKeyConstraintFails <==> code == 1216 || code == 1452
    ensures r.key == DuplicateEntry <==> (code == 1062 || code == 1586) && DuplicateEntryMatch(detail).Some?
    ensures r.key == DuplicateEntry ==>
      r.params == [("value", DuplicateEntryMatch(detail).value.0), ("field", DuplicateEntryMatch(detail).value.1)]
    ensures r.key == ErrorCode409 <==> (code == 1062 || code == 1586) && DuplicateEntryMatch(detail).None?
    ensures r.key == DataTooLongForColumn <==> code == 1406 && column(detail).Some?
    ensures r.key == DataTooLongForColumn ==> r.params == [("field", column(detail).value)]
    ensures r.key == ErrorCode500 <==> code == 1406 && column(detail).None?
    ensures r.key == ErrorCode503 <==> code !in {1364, 1048, 1217, 1451, 1216, 1452, 1062, 1586, 1406}
    ensures r.key !in {DuplicateEntry, IntegrityConstraintViolation, DataTooLongForColumn} ==> r.params == []
    ensures r.key != ErrorCode404
  {
    if code == 1364 || code == 1048 then
      Translation(IntegrityConstraintViolation, [("msg", detail)])
    else if code == 1217 || code == 1451 then
      Translation(CannotDeleteForeignKeyConstraintFails, [])
    else if code == 1216 || code == 1452 then
      Translation(CannotAddForeignKeyConstraintFails, [])
    else if code == 1062 || code == 1586 then
      match DuplicateEntryMatch(detail)
      case Some((value, field)) => Translation(DuplicateEntry, [("value", value), ("field", field)])
      case None => Translation(ErrorCode409, [])
    else if code == 1406 then
      match column(detail)
      case Some(field) => Translation(DataTooLongForColumn, [("field", field)])
      case None => Translation(ErrorCode500, [])
    else
      Translation(ErrorCode503, [])
  }
}
