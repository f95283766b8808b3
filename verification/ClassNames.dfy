// src/modules/Classes.ts: the class list of the html element, as a set of names.
module ClassNames {
  const SWUP_PREFIXES: seq<string> :=
    ["to-", "is-changing", "is-rendering", "is-popstate", "is-animating", "is-leaving"]

  predicate IsSwupClass(name: string) {
    exists p | p in SWUP_PREFIXES :: p <= name
  }

  /** Exactly these prefixes make a class swup's own; `is-active` and the like stay with the page. */
  lemma SwupClassIff(name: string)
    ensures IsSwupClass(name) <==>
      || "to-" <= name || "is-changing" <= name || "is-rendering" <= name
      || "is-popstate" <= name || "is-animating" <= name || "is-leaving" <= name
    ensures !IsSwupClass("is-active") && !IsSwupClass("swup-enabled")
  {
    var ps := ["to-", "is-changing", "is-rendering", "is-popstate", "is-animating", "is-leaving"];
    assert ps[0] in SWUP_PREFIXES && ps[1] in SWUP_PREFIXES && ps[2] in SWUP_PREFIXES;
    assert ps[3] in SWUP_PREFIXES && ps[4] in SWUP_PREFIXES && ps[5] in SWUP_PREFIXES;
    assert "is-active"[3] == 'a' && "swup-enabled"[0] == 's' && |ps[4]| > |"is-active"|;
    assert ps[0][0] == 't' && ps[1][3] == 'c' && ps[2][3] == 'r' && ps[3][3] == 'p' && ps[5][3] == 'l';
    assert ps[1][0] == ps[2][0] == ps[3][0] == ps[4][0] == ps[5][0] == 'i';
    forall p | p in SWUP_PREFIXES ensures p in ps && !(p <= "is-active") && !(p <= "swup-enabled") {
      var k :| 0 <= k < |SWUP_PREFIXES| && SWUP_PREFIXES[k] == p;
      assert p == ps[k];
    }
  }

  /** The classes that swup does not own. */
  function Foreign(names: set<string>): set<string> {
    set c | c in names && !IsSwupClass(c)
  }

  /** No class with a swup prefix is left. */
  predicate Unmarked(names: set<string>) {
    forall c | c in names :: !IsSwupClass(c)
  }

  predicate AllSwup(names: set<string>) {
    forall c | c in names :: IsSwupClass(c)
  }

  lemma PrefixedIsSwup(prefix: string, rest: string)
    requires prefix in SWUP_PREFIXES
    ensures IsSwupClass(prefix + rest)
  {}

  lemma PrefixIsSwup(k: nat)
    requires k < |SWUP_PREFIXES|
    ensures IsSwupClass(SWUP_PREFIXES[k])
  {
    PrefixedIsSwup(SWUP_PREFIXES[k], "");
    assert SWUP_PREFIXES[k] + "" == SWUP_PREFIXES[k];
  }

  lemma StaticNamesAreSwup()
    ensures AllSwup({"is-changing", "is-rendering", "is-popstate", "is-animating", "is-leaving"})
  {
    PrefixIsSwup(1);
    PrefixIsSwup(2);
    PrefixIsSwup(3);
    PrefixIsSwup(4);
    PrefixIsSwup(5);
  }

  /** `add`, `remove` and `clear` on the one element in scope. */
  class Classes {
    var names: set<string>

    constructor (initial: set<string>)
      ensures names == initial
    {
      names := initial;
    }

    method Add(added: seq<string>)
      modifies this
      ensures names == old(names) + set c | c in added
    {
      for k := 0 to |added|
        invariant names == old(names) + set c | c in added[..k]
      {
        assert added[..k + 1] == added[..k] + [added[k]];
        names := names + {added[k]};
      }
      assert added[..|added|] == added;
    }

    method Remove(removed: seq<string>)
      modifies this
      ensures names == old(names) - set c | c in removed
    {
      for k := 0 to |removed|
        invariant names == old(names) - set c | c in removed[..k]
      {
        assert removed[..k + 1] == removed[..k] + [removed[k]];
        names := names - {removed[k]};
      }
      assert removed[..|removed|] == removed;
    }

    method Clear()
      modifies this
      ensures names == Foreign(old(names))
      ensures Unmarked(names)
    {
      var remove := set c | c in names && IsSwupClass(c);
      names := names - remove;
    }
  }
}
