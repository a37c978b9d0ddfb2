/**
 * The locally cached list of short-URL records and the pure transformations
 * the form applies to it: building a record from a create response,
 * flipping the active flag of the records with a given short code, and
 * looking a record up by its short code.
 */
module UrlList {
  import opened JsString

  datatype Option<T> = None | Some(value: T)

  /** One cached short URL, as written to the `urlDatabase` storage key. */
  datatype ShortUrlRecord = ShortUrlRecord(
    shortCode: string,
    originalUrl: string,
    isUrlActive: bool,
    isSecret: bool,
    comment: string,
    createdAt: string)

  /** The record the form caches after a successful create request: the short
      code comes from the response, the URL is the trimmed one that was sent,
      and the record is secret exactly when the password holds something other
      than white space. */
  function NewRecord(shortCode: string, originalUrl: string, isUrlActive: bool,
                     password: string, comment: string, createdAt: string): (r: ShortUrlRecord)
    ensures r.shortCode == shortCode && r.originalUrl == originalUrl
    ensures r.isUrlActive == isUrlActive && r.comment == comment && r.createdAt == createdAt
    ensures r.isSecret <==> exists i :: 0 <= i < |password| && !IsWhitespace(password[i])
  {
    TrimSpec(password);
    ShortUrlRecord(shortCode, originalUrl, isUrlActive, |Trim(password)| != 0, comment, createdAt)
  }

  /** The custom code field as sent to the create endpoint: the trimmed text,
      or null (None) when nothing but white space was typed. */
  function CustomCodeParam(field: string): (r: Option<string>)
    ensures r.None? <==> AllWhitespace(field)
    ensures r.Some? ==> r.value != [] && r.value == Trim(field)
  {
    TrimSpec(field);
    var code := Trim(field);
    if code == [] then None else Some(code)
  }

  /** `urlList.map(...)` in the toggle handler: every record whose short code
      equals `code` gets its active flag negated; nothing else changes. */
  function ToggleActive(list: seq<ShortUrlRecord>, code: string): (r: seq<ShortUrlRecord>)
    ensures |r| == |list|
    ensures forall i :: 0 <= i < |list| ==>
              r[i].isUrlActive == (list[i].isUrlActive != (list[i].shortCode == code))
    ensures forall i :: 0 <= i < |list| ==>
              r[i].(isUrlActive := list[i].isUrlActive) == list[i]
  {
    if list == [] then []
    else
      var head := list[0];
      var flipped := if head.shortCode == code then head.(isUrlActive := !head.isUrlActive) else head;
      [flipped] + ToggleActive(list[1..], code)
  }

  /** True when some record of `list` carries short code `code`. */
  predicate HasCode(list: seq<ShortUrlRecord>, code: string) {
    exists i :: 0 <= i < |list| && list[i].shortCode == code
  }

  /** `list.find(item => item.shortCode === code)`: the first record with that
      short code, or None (JavaScript's `undefined`) when there is none. */
  function FindByCode(list: seq<ShortUrlRecord>, code: string): (r: Option<ShortUrlRecord>)
    ensures r.None? <==> !HasCode(list, code)
    ensures r.Some? ==> (exists k :: 0 <= k < |list| && list[k] == r.value
                           && r.value.shortCode == code
                           && forall j :: 0 <= j < k ==> list[j].shortCode != code)
  {
    if list == [] then None
    else if list[0].shortCode == code then Some(list[0])
    else
      var rest := FindByCode(list[1..], code);
      assert HasCode(list[1..], code) ==> HasCode(list, code) by {
        if HasCode(list[1..], code) {
          var i :| 0 <= i < |list[1..]| && list[1..][i].shortCode == code;
          assert list[i + 1].shortCode == code;
        }
      }
      assert rest.Some? ==> (exists k :: 0 <= k < |list| && list[k] == rest.value
                               && rest.value.shortCode == code
                               && forall j :: 0 <= j < k ==> list[j].shortCode != code)
      by {
        if rest.Some? {
          var k :| 0 <= k < |list[1..]| && list[1..][k] == rest.value
              && forall j :: 0 <= j < k ==> list[1..][j].shortCode != code;
          assert list[k + 1] == rest.value;
          assert forall j :: 0 <= j < k + 1 ==> list[j].shortCode != code by {
            forall j | 0 < j < k + 1 ensures list[j].shortCode != code {
              assert list[j] == list[1..][j - 1];
            }
          }
        }
      }
      rest
  }

  /** Toggling the same short code twice gives back the original list. */
  lemma ToggleTwiceRestores(list: seq<ShortUrlRecord>, code: string)
    ensures ToggleActive(ToggleActive(list, code), code) == list
  {
  }

  /** Toggling a short code that no record carries changes nothing. */
  lemma ToggleAbsentIsIdentity(list: seq<ShortUrlRecord>, code: string)
    requires !HasCode(list, code)
    ensures ToggleActive(list, code) == list
  {
  }

  /** Toggling changes no short code, so the same codes are cached after it. */
  lemma ToggleKeepsCodes(list: seq<ShortUrlRecord>, code: string, other: string)
    ensures HasCode(ToggleActive(list, code), other) <==> HasCode(list, other)
  {
  }

  /** Toggles of two short codes commute. */
  lemma ToggleCommutes(list: seq<ShortUrlRecord>, a: string, b: string)
    ensures ToggleActive(ToggleActive(list, a), b) == ToggleActive(ToggleActive(list, b), a)
  {
  }

  /** After toggling `code`, the record found for `code` is the one found
      before, with its active flag negated. */
  lemma FindAfterToggle(list: seq<ShortUrlRecord>, code: string)
    ensures FindByCode(ToggleActive(list, code), code) ==
            match FindByCode(list, code)
            case None => None
            case Some(item) => Some(item.(isUrlActive := !item.isUrlActive))
  {
  }
}
