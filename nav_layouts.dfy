/**
 * The sidebars of the provider and admin areas
 * (`components/layouts/provider/ProviderLayout.tsx`,
 * `components/layouts/admin/AdminLayout.tsx`): which link is highlighted for
 * the current path, and the admin's sign-out.
 */
module NavLayouts {
  import opened Seqs
  import AuthContext

  /** The provider sidebar's links, in order. */
  const ProviderNav: seq<string> := ["/provider", "/provider/hotels", "/provider/bookings", "/provider/settings"]

  /** The admin sidebar's links, in order. */
  const AdminNav: seq<string> := ["/admin", "/admin/hotels", "/admin/users", "/admin/bookings", "/admin/settings"]

  /**
   * `isActive`: the area's root link only on the root itself; any other link
   * on its own path or anywhere below it, that is under `href + "/"`.
   */
  function IsActive(root: string, href: string, pathname: string): (active: bool)
    ensures href == root ==> (active <==> pathname == root)
    ensures href != root ==> (active <==> pathname == href || href + "/" <= pathname)
    ensures href != root && active ==> href <= pathname
  {
    if href == root then pathname == root else pathname == href || href + "/" <= pathname
  }

  /**
   * No two links are the same, and no link other than the root lies under
   * another: `href + "/"` is never a prefix of another link followed by "/".
   */
  predicate Separated(root: string, items: seq<string>)
  {
    NoDuplicates(items)
    && forall i, j :: 0 <= i < |items| && 0 <= j < |items| && i != j && items[j] != root ==>
      !(items[j] + "/" <= items[i] + "/")
  }

  /** Two prefixes of one string: the shorter is a prefix of the longer. */
  lemma PrefixesComparable(a: string, b: string, p: string)
    requires a <= p && b <= p && |a| <= |b|
    ensures a <= b
  {
    assert a == p[..|a|] && b == p[..|b|];
  }

  /** With separated links, at most one is active for any path. */
  lemma AtMostOneActive(root: string, items: seq<string>, pathname: string)
    requires Separated(root, items)
    ensures forall i, j ::
      0 <= i < |items| && 0 <= j < |items| && IsActive(root, items[i], pathname) && IsActive(root, items[j], pathname) ==>
        i == j
  {
    forall i, j | 0 <= i < |items| && 0 <= j < |items|
      && IsActive(root, items[i], pathname) && IsActive(root, items[j], pathname)
      ensures i == j
    {
      if i != j {
        OneSideActive(root, items, pathname, i, j);
      }
    }
  }

  /** Two different links cannot both be active. */
  lemma OneSideActive(root: string, items: seq<string>, pathname: string, i: nat, j: nat)
    requires Separated(root, items)
    requires i < |items| && j < |items| && i != j
    requires IsActive(root, items[i], pathname)
    ensures !IsActive(root, items[j], pathname)
  {
    var a, b := items[i], items[j];
    assert a != b;
    if a == root {
      Under(b, root);
    } else if b == root {
      Under(a, root);
    } else {
      UnderEither(a, b, pathname);
    }
  }

  /** A path under `href + "/"` stays under it once "/" is added. */
  lemma Under(href: string, pathname: string)
    ensures href + "/" <= pathname ==> href + "/" <= pathname + "/"
  {
    if href + "/" <= pathname {
      assert (pathname + "/")[..|href + "/"|] == pathname[..|href + "/"|];
    }
  }

  /** When two links are active on one path, one of them lies under the other. */
  lemma UnderEither(a: string, b: string, pathname: string)
    ensures (pathname == a || a + "/" <= pathname) && (pathname == b || b + "/" <= pathname) ==>
      a + "/" <= b + "/" || b + "/" <= a + "/"
  {
    Under(a, pathname);
    Under(b, pathname);
    if a + "/" <= pathname + "/" && b + "/" <= pathname + "/" {
      if |a| <= |b| {
        PrefixesComparable(a + "/", b + "/", pathname + "/");
      } else {
        PrefixesComparable(b + "/", a + "/", pathname + "/");
      }
    }
  }

  /** Strings that differ at some position are not prefixes of one another. */
  lemma DifferAt(a: string, b: string, k: nat)
    requires k < |a| && k < |b| && a[k] != b[k]
    ensures !(a <= b)
  {
  }

  /**
   * Links that all start with `root + "/"` and differ from each other in
   * the character just after it are separated.
   */
  lemma SeparatedByFirstLetter(root: string, items: seq<string>)
    requires |items| >= 1 && items[0] == root
    requires forall i :: 1 <= i < |items| ==> |items[i]| > |root| + 1 && items[i][..|root| + 1] == root + "/"
    requires forall i, j :: 1 <= i < |items| && 1 <= j < |items| && i != j ==> items[i][|root| + 1] != items[j][|root| + 1]
    ensures Separated(root, items)
  {
    var k := |root| + 1;
    forall i, j | 0 <= i < |items| && 0 <= j < |items| && i != j
      ensures items[i] != items[j]
    {
      if i == 0 {
        assert |items[j]| > |root|;
      } else if j == 0 {
        assert |items[i]| > |root|;
      } else {
        assert items[i][k] != items[j][k];
      }
    }
    forall i, j | 0 <= i < |items| && 0 <= j < |items| && i != j && items[j] != root
      ensures !(items[j] + "/" <= items[i] + "/")
    {
      if j != 0 {
        if i == 0 {
          assert |items[j] + "/"| > |items[i] + "/"|;
        } else {
          DifferAt(items[j] + "/", items[i] + "/", k);
        }
      }
    }
  }

  lemma ProviderNavSeparated()
    ensures Separated("/provider", ProviderNav)
  {
    SeparatedByFirstLetter("/provider", ProviderNav);
  }

  lemma AdminNavSeparated()
    ensures Separated("/admin", AdminNav)
  {
    SeparatedByFirstLetter("/admin", AdminNav);
  }

  /** At most one provider link is highlighted, whatever the path. */
  lemma ProviderAtMostOneActive(pathname: string)
    ensures forall i, j ::
      0 <= i < |ProviderNav| && 0 <= j < |ProviderNav|
      && IsActive("/provider", ProviderNav[i], pathname) && IsActive("/provider", ProviderNav[j], pathname) ==>
        i == j
  {
    ProviderNavSeparated();
    AtMostOneActive("/provider", ProviderNav, pathname);
  }

  /** At most one admin link is highlighted, whatever the path. */
  lemma AdminAtMostOneActive(pathname: string)
    ensures forall i, j ::
      0 <= i < |AdminNav| && 0 <= j < |AdminNav|
      && IsActive("/admin", AdminNav[i], pathname) && IsActive("/admin", AdminNav[j], pathname) ==>
        i == j
  {
    AdminNavSeparated();
    AtMostOneActive("/admin", AdminNav, pathname);
  }

  /**
   * Every page under the Hotels link highlights it; a path that only starts
   * with the same letters does not, and the dashboard link is lit on no
   * page below it.
   */
  lemma HotelsLinkScope(rest: string)
    ensures IsActive("/provider", "/provider/hotels", "/provider/hotels/" + rest)
    ensures rest != "" && rest[0] != '/' ==> !IsActive("/provider", "/provider/hotels", "/provider/hotels" + rest)
    ensures !IsActive("/provider", "/provider", "/provider/" + rest)
  {
    assert "/provider/hotels" + "/" <= "/provider/hotels/" + rest;
    if rest != "" && rest[0] != '/' {
      assert ("/provider/hotels" + rest)[16] == rest[0];
      DifferAt("/provider/hotels/", "/provider/hotels" + rest, 16);
    }
    assert |"/provider/" + rest| > |"/provider"|;
  }

  /** The admin sidebar's `handleLogout`: sign out, then go to the admin sign-in page. */
  method AdminLogout(auth: AuthContext.AuthProvider) returns (route: string)
    modifies auth
    ensures route == "/admin/authAdmin"
    ensures auth.accessToken.None? && !auth.state.isAuthenticated && auth.state.user.None?
  {
    auth.Logout();
    route := "/admin/authAdmin";
  }
}
