/** The status badge: a backend status is upper-cased and looked up in a
    fixed table of (variant, label) pairs; an unknown status is shown as it
    came, on the default variant. */
module Badge {
  import opened Ascii

  /** The badge colour schemes. */
  datatype Variant = Default | Success | Warning | Danger | Info | Teal | Coral

  datatype StatusConfig = StatusConfig(variant: Variant, text: string)

  /** The candidature statuses: the only keys written in upper case. */
  const UpperKeys: set<string> := {"EN_ATTENTE", "ACCEPTEE", "REFUSEE"}

  /** The user, notification and absence statuses, written in lower case. */
  const LowerKeys: set<string> :=
    {"active", "inactive", "is_active", "is_verified", "non_lu", "lu", "justifiee", "non_justifiee"}

  const StatusMap: map<string, StatusConfig> := map[
    "EN_ATTENTE" := StatusConfig(Warning, "En attente"),
    "ACCEPTEE" := StatusConfig(Success, "Acceptée"),
    "REFUSEE" := StatusConfig(Danger, "Refusée"),
    "active" := StatusConfig(Success, "Actif"),
    "inactive" := StatusConfig(Danger, "Inactif"),
    "is_active" := StatusConfig(Success, "Actif"),
    "is_verified" := StatusConfig(Success, "Vérifié"),
    "non_lu" := StatusConfig(Info, "Non lu"),
    "lu" := StatusConfig(Default, "Lu"),
    "justifiee" := StatusConfig(Success, "Justifiée"),
    "non_justifiee" := StatusConfig(Warning, "Non justifiée")
  ]

  /** The table holds the two groups of keys and nothing else. */
  lemma KeysArePartitioned()
    ensures StatusMap.Keys == UpperKeys + LowerKeys
    ensures UpperKeys * LowerKeys == {}
  {
  }

  /** No upper-cased string is a lower-case key: each of them starts with
      a lower-case letter, and upper-casing leaves none. */
  lemma LowerKeysUnreachable(status: string)
    ensures ToUpper(status) !in LowerKeys
  {
    var u := ToUpper(status);
    ToUpperHasNoLower(status);
    if |u| > 0 {
      assert !IsLowerAlpha(u[0]);
    }
    assert forall k :: k in LowerKeys ==> |k| > 0 && IsLowerAlpha(k[0]);
  }

  /** `StatusBadge`'s configuration: the entry under the upper-cased
      status, else the default variant labelled with the status as given
      (the source's `label` is `text` here). Only a candidature entry can
      ever be found. */
  function Lookup(status: string): (r: StatusConfig)
    ensures r == StatusConfig(Warning, "En attente") || r == StatusConfig(Success, "Acceptée")
         || r == StatusConfig(Danger, "Refusée") || r == StatusConfig(Default, status)
    ensures ToUpper(status) in UpperKeys ==> r == StatusMap[ToUpper(status)]
    ensures ToUpper(status) !in UpperKeys ==> r == StatusConfig(Default, status)
    ensures r.variant != Info
  {
    var key := ToUpper(status);
    assert key !in LowerKeys by { LowerKeysUnreachable(status); }
    if key in StatusMap then StatusMap[key] else StatusConfig(Default, status)
  }

  /** The lookup ignores case for every status the table knows. */
  lemma LookupIgnoresCase(s: string, t: string)
    requires ToUpper(s) == ToUpper(t)
    ensures ToUpper(s) in UpperKeys ==> Lookup(s) == Lookup(t)
    ensures Lookup(s).variant == Lookup(t).variant
  {
  }

  /** Any spelling of "acceptee" finds the accepted entry. */
  lemma AccepteeIsAccepted()
    ensures Lookup("acceptee") == StatusConfig(Success, "Acceptée")
    ensures Lookup("Acceptee") == StatusConfig(Success, "Acceptée")
    ensures Lookup("ACCEPTEE") == StatusConfig(Success, "Acceptée")
  {
    assert ToUpper("acceptee") == "ACCEPTEE";
    assert ToUpper("Acceptee") == "ACCEPTEE";
    assert ToUpper("ACCEPTEE") == "ACCEPTEE";
  }

  /** The lower-case entries are dead: "active" is shown as "active" on the
      default variant, never as "Actif". */
  lemma ActiveFallsBack()
    ensures Lookup("active") == StatusConfig(Default, "active")
    ensures Lookup("lu") == StatusConfig(Default, "lu")
  {
    assert ToUpper("active") == "ACTIVE";
    assert ToUpper("lu") == "LU";
  }
}
