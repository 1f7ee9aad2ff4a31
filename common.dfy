/** Values shared by every handler of the backend model: optional values, the
    outcome of a handler, the error kinds the handlers report, and the two string
    operations the SQL queries rely on (LOWER and LIKE '%x%'). */
module Common {

  datatype Option<T> = None | Some(value: T)

  /** A present, non-empty text: JavaScript truthiness of a string field. */
  predicate TruthyText(x: Option<string>)
  {
    x.Some? && x.value != ""
  }

  /** The outcome of one handler: a success value, or the error the handler answers with.
      On every error path the handlers leave the store as it was (the SQL transaction is
      rolled back, or nothing was written yet). */
  datatype Result<T> = Ok(value: T) | Err(error: Failure)

  /** Error kinds, one per distinct error response of the handlers. */
  datatype Failure =
    | MissingFields               // 400: required request fields absent or falsy
    | MenuItemsNotFound           // 400: 'Some menu items not found'
    | MixedRestaurants            // 400: 'All items must be from the same restaurant'
    | ItemsUnavailable(names: seq<string>)  // 400: 'Some items are unavailable: <names>'
    | NotFound                    // 404: row absent or not owned by / assigned to the caller
    | NotPending                  // 400: 'Order is not in pending state'
    | InvalidStatus               // 400: status outside the caller's allowed set
    | VerificationFailed          // 400: payment signature mismatch
    | AssignedToAnother           // 400: 'Order already assigned to another partner'
    | NotReadyForPickup           // 400: 'Order is not ready for pickup'
    | NotDelivered                // 400: 'You can only review delivered orders'
    | AlreadyReviewed             // 400: 'You have already reviewed this order'
    | NoFieldsToUpdate            // 400: 'No fields to update'
    | ServerError                 // 500: an exception was raised; the transaction rolled back
    | InvalidQuantity             // 400: a quantity below one (the corrected order check only)

  /** The HTTP status code each error kind is answered with. */
  function HttpStatus(f: Failure): (code: int)
    ensures code in {400, 404, 500}
    ensures code == 404 <==> f == NotFound
    ensures code == 500 <==> f == ServerError
  {
    match f
    case NotFound => 404
    case ServerError => 500
    case _ => 400
  }

  /** ASCII lower-casing, the model of SQL LOWER. */
  function Lower(c: char): (d: char)
    ensures 'A' <= c <= 'Z' ==> 'a' <= d <= 'z'
    ensures !('A' <= c <= 'Z') ==> d == c
  {
    if 'A' <= c <= 'Z' then (c as int - 'A' as int + 'a' as int) as char else c
  }

  function LowerStr(s: string): (r: string)
    ensures |r| == |s|
    ensures forall i :: 0 <= i < |s| ==> r[i] == Lower(s[i])
  {
    seq(|s|, i requires 0 <= i < |s| => Lower(s[i]))
  }

  /** `sub` occurs in `s` as a contiguous piece: LIKE '%sub%' without wildcards in `sub`. */
  predicate Contains(s: string, sub: string)
  {
    exists i :: 0 <= i <= |s| - |sub| && OccursAt(s, sub, i)
  }

  predicate OccursAt(s: string, sub: string, i: int)
  {
    0 <= i && i + |sub| <= |s| && s[i..i + |sub|] == sub
  }

  /** LOWER(s) = LOWER(t). */
  predicate EqualsIgnoringCase(s: string, t: string)
  {
    LowerStr(s) == LowerStr(t)
  }

  /** LOWER(s) LIKE LOWER('%sub%'). */
  predicate ContainsIgnoringCase(s: string, sub: string)
  {
    Contains(LowerStr(s), LowerStr(sub))
  }

  /** Case-insensitive equality implies case-insensitive containment: a city filter
      that matches exactly also matches as a substring. */
  lemma EqualsImpliesContains(s: string, t: string)
    requires EqualsIgnoringCase(s, t)
    ensures ContainsIgnoringCase(s, t)
  {
    var ls := LowerStr(s);
    assert ls[0..0 + |ls|] == ls;
    assert OccursAt(ls, LowerStr(t), 0);
  }

  /** The empty pattern matches every string. */
  lemma ContainsEmpty(s: string)
    ensures ContainsIgnoringCase(s, "")
  {
    assert OccursAt(LowerStr(s), LowerStr(""), 0);
  }
}
