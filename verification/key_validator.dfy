/** The top-level key check applied to an ora2pg-conf.json object.

    The object is represented by its own key sequence, in the order
    `Object.keys` reports it. The check is positional: it walks the canonical
    list from the last index down to the first and fails at the first position
    whose key differs, where a position past the end of the object's keys
    (JavaScript's `undefined`) never equals a canonical name. */
module KeyValidator {
  import opened Wrappers

  /** The 21 configuration categories, in their mandated order. */
  const CanonicalKeys: seq<string> :=
    ["COMMON", "INPUT", "SCHEMA", "ENCODING", "EXPORT", "FULL_TEXT_SEARCH", "DATA_DIFF",
     "CONSTRAINT", "TRIGGERS_AND_SEQUENCES", "OBJECT_MODIFICATION", "OUTPUT", "TYPE", "GRANT", "DATA",
     "PERFORMANCE", "PLSQL", "ASSESSMENT", "POSTGRESQL", "SPATIAL", "FDW", "MYSQL"]

  /** `configObjectKeys[i]`: the i-th own key, or `None` for `undefined`. */
  function KeyAt(keys: seq<string>, i: nat): Option<string> {
    if i < |keys| then Some(keys[i]) else None
  }

  /** The loop `while (i--)` after it has been entered with `i == n`:
      positions n-1, n-2, ..., 0 are compared, highest first, and the first
      mismatch ends the check. */
  function MatchesBelow(keys: seq<string>, n: nat): bool
    requires n <= |CanonicalKeys|
  {
    if n == 0 then true
    else if Some(CanonicalKeys[n - 1]) != KeyAt(keys, n - 1) then false
    else MatchesBelow(keys, n - 1)
  }

  /** `validKeys(configObject)`, given the object's own keys. */
  function ValidKeys(keys: seq<string>): bool {
    MatchesBelow(keys, |CanonicalKeys|)
  }

  /** The reference reading of the check: the canonical list is a prefix of
      the object's keys. */
  predicate HasCanonicalPrefix(keys: seq<string>) {
    |keys| >= |CanonicalKeys| && keys[..|CanonicalKeys|] == CanonicalKeys
  }

  /** The downward loop from `n` succeeds exactly when every position below
      `n` holds a key equal to the canonical name there. */
  lemma {:induction false} MatchesBelowMeaning(keys: seq<string>, n: nat)
    requires n <= |CanonicalKeys|
    ensures MatchesBelow(keys, n) <==> forall j :: 0 <= j < n ==> KeyAt(keys, j) == Some(CanonicalKeys[j])
  {
    if n > 0 {
      MatchesBelowMeaning(keys, n - 1);
    }
  }

  /** `validKeys` holds exactly when the canonical list is a prefix of the
      keys: all 21 positions are present and equal, and whatever follows
      position 20 is ignored. */
  lemma ValidKeysIsPrefix(keys: seq<string>)
    ensures ValidKeys(keys) <==> HasCanonicalPrefix(keys)
    ensures ValidKeys(keys) <==> CanonicalKeys <= keys
  {
    MatchesBelowMeaning(keys, |CanonicalKeys|);
    if ValidKeys(keys) {
      assert KeyAt(keys, |CanonicalKeys| - 1).Some?;
      forall j | 0 <= j < |CanonicalKeys|
        ensures keys[..|CanonicalKeys|][j] == CanonicalKeys[j]
      {
        assert KeyAt(keys, j) == Some(CanonicalKeys[j]);
      }
    }
    if HasCanonicalPrefix(keys) {
      forall j | 0 <= j < |CanonicalKeys|
        ensures KeyAt(keys, j) == Some(CanonicalKeys[j])
      {
        assert keys[..|CanonicalKeys|][j] == keys[j];
      }
    }
  }

  /** Positions 0..20 each hold a different canonical name. */
  lemma CanonicalKeysDistinct()
    ensures forall i, j :: 0 <= i < j < |CanonicalKeys| ==> CanonicalKeys[i] != CanonicalKeys[j]
  {
  }

  /** The canonical list itself is accepted. */
  lemma CanonicalAccepted()
    ensures ValidKeys(CanonicalKeys)
  {
    ValidKeysIsPrefix(CanonicalKeys);
  }

  /** An object with fewer than 21 own keys is rejected: the missing
      positions read as `undefined` and never match. */
  lemma FewerKeysRejected(keys: seq<string>)
    requires |keys| < |CanonicalKeys|
    ensures !ValidKeys(keys)
  {
  }

  /** A wrong key at any checked position is rejected. */
  lemma MismatchRejected(keys: seq<string>, i: nat)
    requires i < |CanonicalKeys| && i < |keys|
    requires keys[i] != CanonicalKeys[i]
    ensures !ValidKeys(keys)
  {
    MatchesBelowMeaning(keys, |CanonicalKeys|);
    assert KeyAt(keys, i) != Some(CanonicalKeys[i]);
  }

  /** Keys after position 20 are never looked at: appending any keys to an
      accepted sequence keeps it accepted. */
  lemma TrailingKeysIgnored(keys: seq<string>, extra: seq<string>)
    requires ValidKeys(keys)
    ensures ValidKeys(keys + extra)
  {
    ValidKeysIsPrefix(keys);
    ValidKeysIsPrefix(keys + extra);
    assert (keys + extra)[..|CanonicalKeys|] == keys[..|CanonicalKeys|];
  }

  /** Removing the keys after position 20 does not change the verdict either. */
  lemma OnlyFirstPositionsMatter(keys: seq<string>, other: seq<string>)
    requires |keys| >= |CanonicalKeys| && |other| >= |CanonicalKeys|
    requires keys[..|CanonicalKeys|] == other[..|CanonicalKeys|]
    ensures ValidKeys(keys) <==> ValidKeys(other)
  {
    ValidKeysIsPrefix(keys);
    ValidKeysIsPrefix(other);
  }

  /** Exchanging two checked positions of an accepted sequence yields a
      sequence with the same keys (the same multiset) that is rejected: the
      check compares sequences, not sets. */
  lemma SwapRejected(keys: seq<string>, i: nat, j: nat)
    requires ValidKeys(keys)
    requires i < j < |CanonicalKeys|
    ensures var swapped := keys[i := keys[j]][j := keys[i]];
            multiset(swapped) == multiset(keys) && !ValidKeys(swapped)
  {
    CanonicalKeysDistinct();
    ValidKeysIsPrefix(keys);
    var swapped := keys[i := keys[j]][j := keys[i]];
    assert keys[i] == keys[..|CanonicalKeys|][i] == CanonicalKeys[i];
    assert keys[j] == keys[..|CanonicalKeys|][j] == CanonicalKeys[j];
    MismatchRejected(swapped, i);
  }
}
