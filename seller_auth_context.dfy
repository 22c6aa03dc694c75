/** The seller session (src/contexts/SellerAuthContext.tsx): three mock sellers, a provider
    holding the current seller and a loading flag, the session restored from the browser's
    storage slot `aevum_seller` on mount, and login by e-mail lookup plus a password-length
    rule. The one-second simulated delay is one atomic step here. */
module SellerAuthContext {
  import opened Wrappers

  datatype Seller = Seller(
    id: string, email: string, firstName: string, lastName: string, clinicId: string,
    commission: int, totalSales: int, totalCommission: int)

  const MockSellers: seq<Seller> := [
    Seller("1", "maria.popescu@aevum.ro", "Maria", "Popescu", "bucharest", 10, 15420, 1542),
    Seller("2", "ion.ionescu@aevum.ro", "Ion", "Ionescu", "cluj", 12, 23100, 2772),
    Seller("3", "ana.georgescu@aevum.ro", "Ana", "Georgescu", "timisoara", 8, 9800, 784)
  ]

  /** `sellers.find(s => s.email === email)`. */
  function FindSeller(sellers: seq<Seller>, email: string): (r: Option<Seller>)
    ensures r.None? <==> forall i :: 0 <= i < |sellers| ==> sellers[i].email != email
    ensures r.Some? ==> exists i :: (0 <= i < |sellers| && sellers[i] == r.value && r.value.email == email
      && forall j :: 0 <= j < i ==> sellers[j].email != email)
  {
    if sellers == [] then None
    else if sellers[0].email == email then Some(sellers[0])
    else
      var r := FindSeller(sellers[1..], email);
      assert forall i :: 1 <= i < |sellers| ==> sellers[i] == sellers[1..][i - 1];
      if r.Some? then
        var i :| 0 <= i < |sellers[1..]| && sellers[1..][i] == r.value && r.value.email == email
          && forall j :: 0 <= j < i ==> sellers[1..][j].email != email;
        assert sellers[i + 1] == r.value && forall j :: 0 <= j < i + 1 ==> sellers[j].email != email;
        r
      else r
  }

  /** The mock e-mails are pairwise distinct, so each one finds exactly its own seller. */
  lemma MockSellerLookupIsExact()
    ensures forall i, j :: 0 <= i < j < |MockSellers| ==> MockSellers[i].email != MockSellers[j].email
    ensures forall i :: 0 <= i < |MockSellers| ==> FindSeller(MockSellers, MockSellers[i].email) == Some(MockSellers[i])
  {
  }

  /** Every mock seller's total commission is their rate applied to their total sales. */
  lemma MockSellerCommissionConsistent()
    ensures forall i :: (0 <= i < |MockSellers|
      ==> MockSellers[i].totalCommission * 100 == MockSellers[i].totalSales * MockSellers[i].commission)
  {
  }

  /** The condition `login` accepts: a known e-mail and a password of at least 6 characters. */
  predicate LoginAccepted(email: string, password: string)
  {
    FindSeller(MockSellers, email).Some? && |password| >= 6
  }

  /** The provider's state. `stored` is the storage slot `aevum_seller` (the JSON text of a
      seller, or nothing); `loadingLog` records every value written to `loading`. */
  class SellerAuthProvider {
    var seller: Option<Seller>
    var loading: bool
    var stored: Option<Seller>
    ghost var loadingLog: seq<bool>

    /** `isAuthenticated: !!seller`. */
    function IsAuthenticated(): (b: bool)
      reads this
      ensures b <==> seller.Some?
    {
      seller.Some?
    }

    /** The session and the storage slot agree. */
    predicate Synced()
      reads this
    {
      seller == stored
    }

    /** First render: no seller, loading, whatever the storage slot already holds. */
    constructor (stored: Option<Seller>)
      ensures seller == None && loading && this.stored == stored && loadingLog == []
    {
      seller := None;
      loading := true;
      this.stored := stored;
      loadingLog := [];
    }

    /** The mount effect: restore a stored seller, then clear the loading flag. */
    method Mount()
      modifies this`seller, this`loading, this`loadingLog
      ensures seller == if old(stored).Some? then old(stored) else old(seller)
      ensures !loading && loadingLog == old(loadingLog) + [false]
      ensures old(seller).None? ==> Synced()
    {
      if stored.Some? {
        seller := stored;
      }
      loading := false;
      loadingLog := loadingLog + [false];
    }

    /** `login(email, password)`: loading is raised for the call and lowered on both paths;
        on success the seller found is signed in and persisted, on failure nothing else
        changes. */
    method Login(email: string, password: string) returns (ok: bool)
      modifies this`seller, this`loading, this`stored, this`loadingLog
      ensures ok <==> LoginAccepted(email, password)
      ensures ok ==> seller == FindSeller(MockSellers, email) && stored == seller
      ensures !ok ==> seller == old(seller) && stored == old(stored)
      ensures !loading && loadingLog == old(loadingLog) + [true, false]
      ensures old(Synced()) ==> Synced()
    {
      loading := true;
      loadingLog := loadingLog + [true];
      var found := FindSeller(MockSellers, email);
      if found.Some? && |password| >= 6 {
        seller := found;
        stored := found;
        loading := false;
        loadingLog := loadingLog + [false];
        return true;
      }
      loading := false;
      loadingLog := loadingLog + [false];
      return false;
    }

    /** `logout`: forget the seller and empty the storage slot. The new state does not
        depend on the old one, so a second logout changes nothing. */
    method Logout()
      modifies this`seller, this`stored
      ensures seller == None && stored == None && Synced()
    {
      seller := None;
      stored := None;
    }
  }

  /** A successful login signs in exactly the mock seller with that e-mail. */
  lemma LoginSignsInOwner(i: nat, password: string)
    requires i < |MockSellers| && |password| >= 6
    ensures LoginAccepted(MockSellers[i].email, password)
    ensures FindSeller(MockSellers, MockSellers[i].email) == Some(MockSellers[i])
  {
    MockSellerLookupIsExact();
  }
}
