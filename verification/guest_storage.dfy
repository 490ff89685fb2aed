/** The browser's local storage as the guest pages use it: a string-to-string
    map holding one display name and one guest id per event code. */
module GuestStorage {
  import opened Common

  function NameKey(code: string): string { "guestName_" + code }
  function IdKey(code: string): string { "guestId_" + code }

  /** A JavaScript template inserts `null` for a missing code. */
  function CodeText(code: Option<string>): string {
    if code.Some? then code.value else "null"
  }

  function Lookup(items: map<string, string>, k: string): Option<string> {
    if k in items then Some(items[k]) else None
  }

  /** Both halves of the guest identity for `code` are stored and non-empty. */
  predicate HasIdentity(items: map<string, string>, code: string) {
    Present(Lookup(items, NameKey(code))) && Present(Lookup(items, IdKey(code)))
  }

  /** Name keys and id keys never collide, and each key names exactly one code. */
  lemma {:induction false} KeysDistinct(c1: string, c2: string)
    ensures NameKey(c1) != IdKey(c2)
    ensures NameKey(c1) == NameKey(c2) <==> c1 == c2
    ensures IdKey(c1) == IdKey(c2) <==> c1 == c2
  {
    assert NameKey(c1)[5] == 'N' && IdKey(c2)[5] == 'I';
    if NameKey(c1) == NameKey(c2) {
      assert c1 == NameKey(c1)[10..] && c2 == NameKey(c2)[10..];
    }
    if IdKey(c1) == IdKey(c2) {
      assert c1 == IdKey(c1)[8..] && c2 == IdKey(c2)[8..];
    }
  }

  class Store {
    var items: map<string, string>

    constructor (initial: map<string, string>)
      ensures items == initial
    {
      items := initial;
    }

    function GetItem(k: string): (r: Option<string>)
      reads this
      ensures r.Some? <==> k in items
      ensures r.Some? ==> r.value == items[k]
    {
      Lookup(items, k)
    }

    method SetItem(k: string, v: string)
      modifies this
      ensures items == old(items)[k := v]
    {
      items := items[k := v];
    }
  }
}
