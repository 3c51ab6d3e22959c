/** `TokenBlacklist`: the in-memory set of strings treated as revoked. */
module Blacklist {

  class TokenBlacklist {
    var blacklistedTokens: set<string>

    /** The set starts empty at start-up. */
    constructor ()
      ensures blacklistedTokens == {}
    {
      blacklistedTokens := {};
    }

    /** `isBlacklisted(jwt)`. */
    predicate IsBlacklisted(jwt: string)
      reads this
    {
      jwt in blacklistedTokens
    }

    /** `isBlackListed(jwt)`, the spelling `JwtUtil` calls. */
    predicate IsBlackListed(jwt: string)
      reads this
    {
      jwt in blacklistedTokens
    }

    /**
     * `addToBlackList(token)`: afterwards both lookups say yes for `token`; no
     * other answer changes, and adding a member again changes nothing.
     */
    method AddToBlackList(token: string)
      modifies this
      ensures blacklistedTokens == old(blacklistedTokens) + {token}
      ensures IsBlacklisted(token) && IsBlackListed(token)
      ensures forall t :: t != token ==> (IsBlacklisted(t) <==> old(IsBlacklisted(t)))
      ensures old(IsBlacklisted(token)) ==> blacklistedTokens == old(blacklistedTokens)
    {
      blacklistedTokens := blacklistedTokens + {token};
    }

    /** The two lookups agree on every input. */
    lemma LookupsAgree(jwt: string)
      ensures IsBlacklisted(jwt) == IsBlackListed(jwt)
    {
    }
  }
}
