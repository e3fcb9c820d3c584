/**
 * The bot invite generator: a client ID, a permissions integer and a list
 * of OAuth2 scopes, rendered as an authorization link.
 */
module InviteTool {
  import opened Wrappers
  import opened Decimal
  import opened Seqs

  /** The scopes offered as checkboxes. */
  const AvailableScopes: seq<string> :=
    ["bot", "applications.commands", "identify", "guilds", "guilds.join", "gdm.join", "messages.read", "rpc"]

  const LinkPrefix: string := "https://discord.com/api/oauth2/authorize?client_id="

  /**
   * `toggleScope`: a present scope is removed wherever it occurs, an absent
   * one is appended at the end.
   */
  function ToggledScopes(prev: seq<string>, scope: string): (r: seq<string>)
    ensures scope in r <==> scope !in prev
    ensures forall s :: s != scope ==> (s in r <==> s in prev)
    ensures scope !in prev ==> r == prev + [scope]
    ensures scope in prev ==> IsSubsequence(r, prev) && |r| < |prev|
    ensures NoDuplicates(prev) ==> NoDuplicates(r)
  {
    if scope in prev then
      var r := Filter(prev, s => s != scope);
      FilterMember(prev, s => s != scope, scope);
      assert |r| < |prev| by {
        var i :| 0 <= i < |prev| && prev[i] == scope;
        FilterShrinks(prev, s => s != scope, i);
      }
      forall s | s != scope ensures s in r <==> s in prev {
        FilterMember(prev, s => s != scope, s);
      }
      assert NoDuplicates(prev) ==> NoDuplicates(r) by {
        if NoDuplicates(prev) {
          FilterNoDuplicates(prev, s => s != scope);
        }
      }
      r
    else
      var r := prev + [scope];
      assert NoDuplicates(prev) ==> NoDuplicates(r) by {
        if NoDuplicates(prev) {
          forall i, j | 0 <= i < j < |r| ensures r[i] != r[j] {
            if j == |prev| {
              assert r[i] == prev[i];
            } else {
              assert r[i] == prev[i] && r[j] == prev[j];
            }
          }
        }
      }
      r
  }

  /** With no duplicates, removing a scope deletes exactly its one position. */
  lemma ToggleRemovesOnePosition(prev: seq<string>, i: nat)
    requires NoDuplicates(prev) && i < |prev|
    ensures ToggledScopes(prev, prev[i]) == prev[..i] + prev[i + 1..]
  {
    var scope := prev[i];
    var p := (s: string) => s != scope;
    var a, b := prev[..i], prev[i + 1..];
    assert prev == a + [scope] + b;
    assert Filter(prev, p) == a + b by {
      forall k | 0 <= k < |a| ensures p(a[k]) {
        assert a[k] == prev[k];
      }
      forall k | 0 <= k < |b| ensures p(b[k]) {
        assert b[k] == prev[i + 1 + k];
      }
      FilterRemovesOne(a, scope, b, p);
    }
    assert scope in prev;
  }

  /** Toggling twice from a state without the scope brings the list back. */
  lemma ToggleAddThenRemove(prev: seq<string>, scope: string)
    requires NoDuplicates(prev) && scope !in prev
    ensures ToggledScopes(ToggledScopes(prev, scope), scope) == prev
  {
    var r := prev + [scope];
    assert r[|prev|] == scope;
    assert NoDuplicates(r);
    ToggleRemovesOnePosition(r, |prev|);
    assert r[..|prev|] == prev;
  }

  /** The value a blank field falls back to. */
  function OrDefault(s: string, default: string): (r: string)
    ensures s != [] ==> r == s
    ensures s == [] ==> r == default
  {
    if s == [] then default else s
  }

  /** `inviteLink`: the fixed endpoint followed by the query. */
  function InviteLink(clientId: string, permissions: string, scopes: seq<string>): string
  {
    LinkPrefix + LinkQuery(clientId, permissions, scopes)
  }

  /** The query after `client_id=`, blank inputs replaced by their placeholders. */
  function LinkQuery(clientId: string, permissions: string, scopes: seq<string>): string
  {
    OrDefault(clientId, "CLIENT_ID") + "&" + PermissionsPart(permissions, scopes)
  }

  function PermissionsPart(permissions: string, scopes: seq<string>): string
  {
    "permissions=" + (OrDefault(permissions, "0") + "&" + ("scope=" + Join(scopes, "%20")))
  }

  lemma PrefixCancel(p: string, x: string, y: string)
    requires p + x == p + y
    ensures x == y
  {
    assert x == (p + x)[|p|..] && y == (p + y)[|p|..];
  }

  /** Splitting at the first `&`. */
  lemma SplitAtAmpersand(a: string, b: string, c: string, d: string)
    requires '&' !in a && '&' !in c
    requires a + "&" + b == c + "&" + d
    ensures a == c && b == d
  {
    var x := a + "&" + b;
    assert x[|a|] == '&' && x[|c|] == '&';
    assert forall k :: 0 <= k < |a| ==> x[k] == a[k];
    assert forall k :: 0 <= k < |c| ==> x[k] == c[k];
    assert a == x[..|a|] && c == x[..|c|];
    assert b == x[|a| + 1..] && d == x[|c| + 1..];
  }

  /** No `&` in `s`, checked character by character. */
  predicate NoAmpersand(s: string)
  {
    s == [] || (s[0] != '&' && NoAmpersand(s[1..]))
  }

  lemma {:induction false} NoAmpersandNotIn(s: string)
    requires NoAmpersand(s)
    ensures '&' !in s
  {
    if s != [] {
      NoAmpersandNotIn(s[1..]);
      assert s == [s[0]] + s[1..];
    }
  }

  /** A digit-only input, or its placeholder, holds no `&`. */
  lemma DefaultsNoAmpersand(c: string, p: string)
    requires AllDigits(c) && AllDigits(p)
    ensures '&' !in OrDefault(c, "CLIENT_ID") && '&' !in OrDefault(p, "0")
  {
    assert NoAmpersand("CLIENT_ID");
    NoAmpersandNotIn("CLIENT_ID");
  }

  /**
   * The link determines what went into it: for digit-only inputs, equal
   * links have the same effective client ID, the same effective permissions
   * and the same joined scope text.
   */
  lemma InviteLinkDetermines(c1: string, p1: string, s1: seq<string>, c2: string, p2: string, s2: seq<string>)
    requires AllDigits(c1) && AllDigits(p1) && AllDigits(c2) && AllDigits(p2)
    requires InviteLink(c1, p1, s1) == InviteLink(c2, p2, s2)
    ensures OrDefault(c1, "CLIENT_ID") == OrDefault(c2, "CLIENT_ID")
    ensures OrDefault(p1, "0") == OrDefault(p2, "0")
    ensures Join(s1, "%20") == Join(s2, "%20")
  {
    var o1, o2 := OrDefault(c1, "CLIENT_ID"), OrDefault(c2, "CLIENT_ID");
    var d1, d2 := OrDefault(p1, "0"), OrDefault(p2, "0");
    var r1, r2 := PermissionsPart(p1, s1), PermissionsPart(p2, s2);
    var j1, j2 := Join(s1, "%20"), Join(s2, "%20");
    var t1, t2 := "scope=" + j1, "scope=" + j2;
    DefaultsNoAmpersand(c1, p1);
    DefaultsNoAmpersand(c2, p2);
    assert o1 + "&" + r1 == o2 + "&" + r2 by {
      PrefixCancel(LinkPrefix, LinkQuery(c1, p1, s1), LinkQuery(c2, p2, s2));
    }
    SplitAtAmpersand(o1, r1, o2, r2);
    assert d1 + "&" + t1 == d2 + "&" + t2 by {
      assert r1 == "permissions=" + (d1 + "&" + t1) && r2 == "permissions=" + (d2 + "&" + t2);
      PrefixCancel("permissions=", d1 + "&" + t1, d2 + "&" + t2);
    }
    SplitAtAmpersand(d1, t1, d2, t2);
    PrefixCancel("scope=", j1, j2);
  }

  /** The form state. Both text inputs keep only digits; the scope list has no duplicates. */
  class InviteBuilder {
    var clientId: string
    var permissions: string
    var scopes: seq<string>

    predicate Valid()
      reads this
    {
      AllDigits(clientId) && AllDigits(permissions) && NoDuplicates(scopes)
    }

    constructor()
      ensures Valid()
      ensures clientId == "" && permissions == "8" && scopes == ["bot", "applications.commands"]
    {
      clientId := "";
      permissions := "8";
      scopes := ["bot", "applications.commands"];
    }

    /** The client ID input: `value.replace(/\D/g, '')`. */
    method SetClientId(raw: string)
      requires Valid()
      modifies this
      ensures Valid()
      ensures clientId == StripNonDigits(raw)
      ensures permissions == old(permissions) && scopes == old(scopes)
    {
      clientId := StripNonDigits(raw);
    }

    /** The permissions input, digit-only in the same way. */
    method SetPermissions(raw: string)
      requires Valid()
      modifies this
      ensures Valid()
      ensures permissions == StripNonDigits(raw)
      ensures clientId == old(clientId) && scopes == old(scopes)
    {
      permissions := StripNonDigits(raw);
    }

    method ToggleScope(scope: string)
      requires Valid()
      modifies this
      ensures Valid()
      ensures scopes == ToggledScopes(old(scopes), scope)
      ensures clientId == old(clientId) && permissions == old(permissions)
    {
      scopes := ToggledScopes(scopes, scope);
    }

    function Link(): string
      reads this
    {
      InviteLink(clientId, permissions, scopes)
    }

    /** `copyToClipboard`: nothing is copied while the client ID is empty. */
    function CopyText(): (r: Option<string>)
      reads this
      ensures r.None? <==> clientId == []
      ensures r.Some? ==> r.value == Link()
    {
      if clientId == [] then None else Some(Link())
    }
  }

  /** The initial form's link, with the client ID placeholder. */
  lemma InitialLink()
    ensures InviteLink("", "8", ["bot", "applications.commands"])
      == LinkPrefix + ("CLIENT_ID" + "&" + ("permissions=" + ("8" + "&" + ("scope=" + "bot%20applications.commands"))))
  {
    var scopes := ["bot", "applications.commands"];
    assert scopes[1..] == ["applications.commands"];
    assert Join(scopes, "%20") == "bot" + "%20" + "applications.commands";
    assert "bot" + "%20" + "applications.commands" == "bot%20applications.commands";
  }

  lemma AvailableScopesDistinct()
    ensures NoDuplicates(AvailableScopes)
  {
  }
}
