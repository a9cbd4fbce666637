/** State diffs survive publication as a blob. */
module DataAvailability {
  import opened Outcomes
  import opened Fourier
  import opened BlsCertificate
  import opened Blob
  import opened Sorted
  import opened StateDiff
  import opened MetadataWord
  import opened Encoding

  /** The words of one blob: the encoding, then zeros. */
  function Padded(words: seq<nat>): (blob: seq<nat>)
    requires |words| <= BLOB_LEN
    ensures |blob| == BLOB_LEN
  {
    words + seq(BLOB_LEN - |words|, _ => 0)
  }

  // ---- Every word is below the modulus ----------------------------------

  lemma ReducedConcat(a: seq<nat>, b: seq<nat>, p: nat)
    requires Reduced(a, p) && Reduced(b, p)
    ensures Reduced(a + b, p)
  {
  }

  lemma {:induction false} PairsReduced(m: map<nat, nat>, ks: seq<nat>)
    requires FeltMap(m) && forall k :: k in ks ==> k in m
    ensures Reduced(Pairs(m, ks), BLS_MODULUS)
  {
    if ks != [] {
      PairsReduced(m, ks[1..]);
      ReducedConcat([ks[0], m[ks[0]]], Pairs(m, ks[1..]), BLS_MODULUS);
    }
  }

  lemma MetadataReduced(m: Metadata)
    requires Packable(m)
    ensures EncodeMetadata(m) < BLS_MODULUS
  {
    hide *;
    EncodeMetadataIs(m);
    PackedBound(m);
  }

  lemma PackedBound(m: Metadata)
    requires Packable(m)
    ensures Packed(m) < BLS_MODULUS
  {
    hide Two;
    WordIsTwo();
  }

  lemma UpdateReduced(u: ContractUpdate)
    requires UpdateFits(u)
    ensures Reduced(EncodeUpdate(u), BLS_MODULUS)
  {
    hide EncodeMetadata;
    var hash := if u.classHash.Some? then [u.classHash.value] else [];
    MetadataReduced(u.metadata);
    PairsReduced(u.storage, Ascending(u.storage.Keys));
    ReducedConcat([EncodeMetadata(u.metadata)], hash, BLS_MODULUS);
    ReducedConcat([EncodeMetadata(u.metadata)] + hash, Entries(u.storage), BLS_MODULUS);
  }

  lemma AddressReduced(a: nat)
    requires a < ADDRESS_BOUND
    ensures Reduced([a], BLS_MODULUS)
  {
  }

  lemma {:induction false} ContractsReduced(m: map<nat, ContractUpdate>, ks: seq<nat>)
    requires forall k :: k in ks ==> k in m && k < ADDRESS_BOUND && UpdateFits(m[k])
    ensures Reduced(EncodeContracts(m, ks), BLS_MODULUS)
  {
    hide EncodeUpdate, UpdateFits, Reduced, EncodeContracts;
    ContractsUnfold(m, ks);
    if ks == [] {
      NothingReduced();
    } else {
      var k := ks[0];
      assert k in ks;
      AddressReduced(k);
      UpdateReduced(m[k]);
      ContractsReduced(m, ks[1..]);
      ReducedConcat([k], EncodeUpdate(m[k]), BLS_MODULUS);
      ReducedConcat([k] + EncodeUpdate(m[k]), EncodeContracts(m, ks[1..]), BLS_MODULUS);
    }
  }

  lemma NothingReduced()
    ensures Reduced([], BLS_MODULUS)
  {
  }

  lemma ContractsUnfold(m: map<nat, ContractUpdate>, ks: seq<nat>)
    requires forall k :: k in ks ==> k in m
    ensures EncodeContracts(m, ks) ==
            if ks == [] then [] else [ks[0]] + EncodeUpdate(m[ks[0]]) + EncodeContracts(m, ks[1..])
  {
    hide EncodeUpdate;
  }

  /** Every word of an encoding is a reduced field element of the blob. */
  lemma EncodedReduced(s: StateUpdates)
    requires Encodable(s)
    ensures Reduced(Encoded(s), BLS_MODULUS)
  {
    hide EncodeContracts, Pairs, UpdateFits, ContractUpdates, WellTyped, Encodable;
    var m := ContractUpdates(s);
    UpdatesFit(s);
    DeclaredFits(s);
    ContractsReduced(m, Ascending(m.Keys));
    PairsReduced(s.declared, Ascending(s.declared.Keys));
    ReducedConcat([|m|], EncodeUpdates(m), BLS_MODULUS);
    ReducedConcat([|m|] + EncodeUpdates(m), [|s.declared|], BLS_MODULUS);
    ReducedConcat([|m|] + EncodeUpdates(m) + [|s.declared|], Entries(s.declared), BLS_MODULUS);
  }

  // ---- End to end -------------------------------------------------------

  /**
    Encoding a diff that fits into a blob, padding it, transforming it, recovering
    the blob and decoding the result gives the diff's normal form.
   */
  lemma PublishedDiffRecovers(s: StateUpdates)
    requires Encodable(s) && |Encoded(s)| <= BLOB_LEN
    ensures var blob := Transformed(Padded(Encoded(s)));
            && Recovered(blob) == Some(Padded(Encoded(s)))
            && Decoded(Padded(Encoded(s))) == Ok(NormalForm(s))
  {
    hide Encoded, Encodable, Decoded, Transformed, Recovered;
    var zeros := seq(BLOB_LEN - |Encoded(s)|, _ => 0);
    EncodedReduced(s);
    ReducedConcat(Encoded(s), zeros, BLS_MODULUS);
    BlobIsPowerOfTwo();
    RecoverTransform(Padded(Encoded(s)));
    RoundTrip(s, zeros);
  }

  lemma BlobIsPowerOfTwo()
    ensures PowerOfTwo(BLOB_LEN)
  {
    BlobLength();
    FourierInverse.TwoIsPower(12);
  }
}
