/**
 * The seller sidebar: which navigation entry is highlighted for the
 * current path, the seller name it shows, and logging out.
 */
module Sidebar {
  import opened Wrappers
  import opened Text
  import opened Login

  /** `isActive(path)`: the path itself or anything below it; no path (`null`) is never active. */
  predicate IsActive(pathname: Option<string>, path: string)
  {
    pathname == Some(path) || (pathname.Some? && StartsWith(pathname.value, path + "/"))
  }

  /** The `href`s of `navigationItems`, in order. */
  const NavPaths: seq<string> := ["/seller/dashboard", "/seller/products", "/seller/sales", "/seller/withdrawals", "/seller/settings"]

  /** The name the sidebar shows once it has read the stored record: `seller.name || "Seller"`, or "" with none. */
  function SellerNameFrom(stored: Option<SellerRecord>): (r: string)
    ensures stored.None? ==> r == ""
    ensures stored.Some? && stored.value.name != "" ==> r == stored.value.name
    ensures stored.Some? && stored.value.name == "" ==> r == "Seller"
  {
    match stored
    case None => ""
    case Some(seller) => if seller.name != "" then seller.name else "Seller"
  }

  // ------------------------------------------------------------ lemmas

  /** An entry is active for its own path and the paths below it, and for no path that merely shares its prefix. */
  lemma ActiveIff(path: string, rest: string)
    ensures IsActive(Some(path + rest), path) <==> rest == "" || rest[0] == '/'
    ensures !IsActive(None, path)
  {
    var s := path + rest;
    if rest == "" {
      assert s == path;
    } else {
      assert s[..|path| + 1] == path + [rest[0]];
      if rest[0] == '/' {
        assert s[..|path + "/"|] == path + "/";
      } else {
        assert s != path;
        assert (path + "/")[|path|] == '/';
      }
    }
  }

  /** An active entry's path is a prefix of the current path. */
  lemma ActiveAgrees(s: string, a: string, k: int)
    requires 0 <= k < |a|
    ensures IsActive(Some(s), a) ==> k < |s| && s[k] == a[k]
  {
    if IsActive(Some(s), a) && s != a {
      assert s[..|a + "/"|] == a + "/";
      assert (a + "/")[k] == a[k];
    }
  }

  /** Two paths differing at a position both have cannot both be active. */
  lemma DifferentPathsExclusive(s: string, a: string, b: string, k: int)
    requires 0 <= k < |a| && k < |b| && a[k] != b[k]
    ensures !(IsActive(Some(s), a) && IsActive(Some(s), b))
  {
    ActiveAgrees(s, a, k);
    ActiveAgrees(s, b, k);
  }

  /** At most one navigation entry is highlighted, whatever the path. */
  lemma AtMostOneActive(pathname: Option<string>, i: int, j: int)
    requires 0 <= i < |NavPaths| && 0 <= j < |NavPaths| && i != j
    ensures !(IsActive(pathname, NavPaths[i]) && IsActive(pathname, NavPaths[j]))
  {
    if pathname.Some? {
      var a, b := NavPaths[i], NavPaths[j];
      var k := if {a, b} == {"/seller/sales", "/seller/settings"} then 9 else 8;
      assert a[k] != b[k];
      DifferentPathsExclusive(pathname.value, a, b, k);
    }
  }

  /** After logging in, the sidebar greets the seller by the email's local part, or as "Seller" if it is empty. */
  lemma NameAfterLogin(email: string, randomPart: string)
    requires '@' in email
    ensures var local := BeforeFirst(email, '@');
      SellerNameFrom(Some(NewSession(email, randomPart))) == if local == "" then "Seller" else local
    ensures SellerNameFrom(Some(NewSession("@example.com", randomPart))) == "Seller"
  {
  }

  // ------------------------------------------------------------ the component

  class SellerSidebar {
    var pathname: Option<string>
    var sellerName: string
    /** The "zafago_seller" entry of the browser's storage. */
    var stored: Option<SellerRecord>

    /** Mounting: `sellerName` starts empty and the effect reads the stored record. */
    constructor (path: Option<string>, storedBefore: Option<SellerRecord>)
      ensures pathname == path && stored == storedBefore
      ensures sellerName == SellerNameFrom(storedBefore)
    {
      pathname := path;
      stored := storedBefore;
      sellerName := "";
      if storedBefore.Some? {
        sellerName := if storedBefore.value.name != "" then storedBefore.value.name else "Seller";
      }
    }

    /** Whether the entry for `path` is highlighted. */
    function Active(path: string): bool
      reads this
    {
      IsActive(pathname, path)
    }

    /** `handleLogout`: the stored record is removed (the redirect is not modelled). */
    method HandleLogout()
      modifies this
      ensures stored == None
      ensures pathname == old(pathname) && sellerName == old(sellerName)
    {
      stored := None;
    }
  }
}
