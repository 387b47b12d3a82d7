/** The reserved-word and built-in type-name registries (KeyWords and
    TypeNames of the formatter). Their concrete contents are not part of
    this model: a registry is a fixed, read-only pair of word sets handed to
    every operation, and membership ignores letter case. */
module Keywords {
  import opened Ascii

  datatype Registry = Registry(keywords: set<string>, typeNames: set<string>)
  {
    /** Every entry is a non-empty word, and no spelling is registered both
        as a reserved word and as a type name. */
    ghost predicate Valid() {
      && (forall k :: k in keywords ==> k != [] && AllWordChars(k))
      && (forall t :: t in typeNames ==> t != [] && AllWordChars(t))
      && (forall k, t :: k in keywords && t in typeNames ==> Lower(k) != Lower(t))
    }

    /** Case-insensitive membership in the reserved-word registry. */
    predicate IsKeyword(w: string) {
      exists k :: k in keywords && Lower(k) == Lower(w)
    }

    /** Case-insensitive membership in the type-name registry. */
    predicate IsTypeName(w: string) {
      exists t :: t in typeNames && Lower(t) == Lower(w)
    }
  }

  /** Membership depends on the lowercase spelling alone, so a word and any
      re-cased copy of it are classified alike. */
  lemma MembershipIgnoresCase(reg: Registry, w: string, v: string)
    requires Lower(w) == Lower(v)
    ensures reg.IsKeyword(w) == reg.IsKeyword(v)
    ensures reg.IsTypeName(w) == reg.IsTypeName(v)
  {
  }

  /** Both spellings of a registered word are recognised. */
  lemma RegisteredSpellings(reg: Registry, k: string)
    ensures k in reg.keywords ==> reg.IsKeyword(Lower(k)) && reg.IsKeyword(Upper(k))
    ensures k in reg.typeNames ==> reg.IsTypeName(Lower(k)) && reg.IsTypeName(Upper(k))
  {
    StringCaseFacts(k);
  }

  /** In a valid registry a type name is never also a reserved word. */
  lemma TypeNameIsNotKeyword(reg: Registry, w: string)
    requires reg.Valid()
    requires reg.IsTypeName(w)
    ensures !reg.IsKeyword(w)
  {
  }
}
