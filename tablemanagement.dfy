/**
 * The admin table page (frontend/src/pages/admin/TableManagement.tsx): the active and inactive
 * counts, the local list updates after toggling, deleting and regenerating, and the rewrite of the
 * QR link's origin for display.
 */
module TableAdmin {
  import opened Wrappers
  import opened Strings
  import opened Collections
  import TablesRoute

  /** A table as the admin page holds it. */
  datatype AdminTable = AdminTable(id: string, tableNumber: int, qrCodeUrl: string, qrCodeData: string, isActive: bool, capacity: int)

  // ----- Counts -----

  function IsActive(t: AdminTable): bool {
    t.isActive
  }

  function IsInactive(t: AdminTable): bool {
    !t.isActive
  }

  /** `tables.filter(t => t.isActive).length`. */
  function ActiveCount(tables: seq<AdminTable>): nat {
    Count(tables, IsActive)
  }

  /** `tables.filter(t => !t.isActive).length`. */
  function InactiveCount(tables: seq<AdminTable>): nat {
    Count(tables, IsInactive)
  }

  /** The header's "N active, M inactive" accounts for every table exactly once. */
  lemma CountsCoverTables(tables: seq<AdminTable>)
    ensures ActiveCount(tables) + InactiveCount(tables) == |tables|
  {
    CountSplit(tables, IsActive, IsInactive);
  }

  // ----- List updates -----

  function Flipped(t: AdminTable, id: string): AdminTable {
    if t.id == id then t.(isActive := !t.isActive) else t
  }

  /** `handleToggle`: the matching table's `isActive` flips; the others stay. */
  function ToggleTable(tables: seq<AdminTable>, id: string): (r: seq<AdminTable>)
    ensures |r| == |tables|
    ensures forall k :: 0 <= k < |tables| ==> r[k] == Flipped(tables[k], id)
  {
    if tables == [] then [] else [Flipped(tables[0], id)] + ToggleTable(tables[1..], id)
  }

  /** Toggling one table moves it between the counts and keeps the total. */
  lemma ToggleMovesCount(tables: seq<AdminTable>, id: string)
    ensures ActiveCount(ToggleTable(tables, id)) + InactiveCount(ToggleTable(tables, id)) == |tables|
  {
    CountsCoverTables(ToggleTable(tables, id));
  }

  function OtherTable(id: string): AdminTable -> bool {
    (t: AdminTable) => t.id != id
  }

  /** `handleDelete`: exactly the matching id goes; the rest keep their order. */
  function DeleteTable(tables: seq<AdminTable>, id: string): (r: seq<AdminTable>)
    ensures forall t :: t in r <==> t in tables && t.id != id
    ensures IsSubsequence(r, tables)
  {
    FilterIsSubsequence(tables, OtherTable(id));
    Filter(tables, OtherTable(id))
  }

  function WithQr(t: AdminTable, id: string, url: string): AdminTable {
    if t.id == id then t.(qrCodeUrl := url) else t
  }

  /** Regenerate: the matching table takes the new image; nothing else changes. */
  function SetQrUrl(tables: seq<AdminTable>, id: string, url: string): (r: seq<AdminTable>)
    ensures |r| == |tables|
    ensures forall k :: 0 <= k < |tables| ==> r[k] == WithQr(tables[k], id, url)
  {
    if tables == [] then [] else [WithQr(tables[0], id, url)] + SetQrUrl(tables[1..], id, url)
  }

  // ----- QR text -----

  const PUBLIC_ORIGIN := "https://serve-x-side-walk.vercel.app"

  /** The length of the longest prefix of `s` without a '/'. */
  function HostLen(s: string): (n: nat)
    ensures n <= |s| && '/' !in s[..n] && (n < |s| ==> s[n] == '/')
  {
    if s == [] || s[0] == '/' then 0
    else
      var n := HostLen(s[1..]);
      assert s[..n + 1] == [s[0]] + s[1..][..n];
      n + 1
  }

  /** The displayed link: a leading "http://" and one or more non-'/' characters become the public origin; any other text is shown as it is. */
  function RewriteQrText(s: string): (r: string)
    ensures !StartsWith(s, "http://") ==> r == s
  {
    if StartsWith(s, "http://") && HostLen(s[7..]) >= 1 then PUBLIC_ORIGIN + s[7 + HostLen(s[7..])..] else s
  }

  /** A link to a local host shows the same path under the public origin. */
  lemma RewriteLink(host: string, path: string)
    requires host != "" && '/' !in host
    requires path == "" || path[0] == '/'
    ensures RewriteQrText("http://" + host + path) == PUBLIC_ORIGIN + path
  {
    var s := "http://" + host + path;
    assert s[..7] == "http://";
    assert s[7..] == host + path;
    HostOfLink(host, path);
    assert s[7 + |host|..] == path;
  }

  lemma {:induction false} HostOfLink(host: string, path: string)
    requires '/' !in host
    requires path == "" || path[0] == '/'
    ensures HostLen(host + path) == |host|
  {
    if host == [] {
      assert host + path == path;
    } else {
      assert (host + path)[1..] == host[1..] + path;
      assert '/' !in host[1..] by {
        forall i | 0 <= i < |host[1..]| ensures host[1..][i] != '/' {
          assert host[1..][i] == host[i + 1];
        }
      }
      HostOfLink(host[1..], path);
    }
  }

  /** The QR link of a table, made on a plain-http base, is shown on the public origin with the same table path. */
  lemma RewriteTableLink(host: string, tableId: nat)
    requires host != "" && '/' !in host
    ensures RewriteQrText(TablesRoute.QrData("http://" + host, tableId)) == PUBLIC_ORIGIN + "/t/" + NatToString(tableId)
  {
    var path := "/t/" + NatToString(tableId);
    assert TablesRoute.QrData("http://" + host, tableId) == "http://" + host + path;
    RewriteLink(host, path);
  }

  /** Rewriting twice is rewriting once: the public origin is https and is never rewritten. */
  lemma RewriteIdempotent(s: string)
    ensures RewriteQrText(RewriteQrText(s)) == RewriteQrText(s)
  {
    var r := RewriteQrText(s);
    if r != s {
      assert r[4] == 's' && "http://"[4] == ':';
      assert !StartsWith(r, "http://");
    }
  }

  /** The page state: the tables and the table whose QR dialog is open. */
  class TableManagementPage {
    var tables: seq<AdminTable>
    var showQR: Option<AdminTable>

    constructor(fetched: seq<AdminTable>)
      ensures tables == fetched && showQR == None
    {
      tables, showQR := fetched, None;
    }

    /** The local part of `handleToggle`, after the server call. */
    method HandleToggle(table: AdminTable)
      modifies this
      ensures tables == ToggleTable(old(tables), table.id) && showQR == old(showQR)
    {
      tables := ToggleTable(tables, table.id);
    }

    /** The local part of `handleDelete`; `confirmed` is the answer to the confirmation dialog. */
    method HandleDelete(id: string, confirmed: bool)
      modifies this
      ensures confirmed ==> tables == DeleteTable(old(tables), id)
      ensures !confirmed ==> tables == old(tables)
      ensures showQR == old(showQR)
    {
      if confirmed {
        tables := DeleteTable(tables, id);
      }
    }

    /** The Regenerate button of the open QR dialog, given the image the server returned. */
    method Regenerate(newUrl: string)
      requires showQR.Some?
      modifies this
      ensures tables == SetQrUrl(old(tables), old(showQR).value.id, newUrl)
      ensures showQR == Some(old(showQR).value.(qrCodeUrl := newUrl))
    {
      tables := SetQrUrl(tables, showQR.value.id, newUrl);
      showQR := Some(showQR.value.(qrCodeUrl := newUrl));
    }
  }
}
