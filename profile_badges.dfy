/**
 * The badge row of the profile card: assembling the list of badges
 * (`getBadges`) and laying them out from a corner anchor (`genBadges`).
 */
module ProfileBadges {
  import opened Wrappers
  import opened Canvas
  import opened Collaborators
  import opened Common
  import opened ProfileOptions

  /** An account badge as the profile data lists it. */
  datatype BadgeRef = BadgeRef(name: string, icon: string)

  /** A loaded badge with its preset geometry: offset (x, y) and width w. */
  datatype Badge = Badge(image: Image, x: real, y: real, w: real)

  /** One image to load, the geometry its badge gets, and the error thrown if it cannot be loaded. */
  datatype LoadRequest = LoadRequest(source: string, x: real, y: real, w: real, failure: Error)

  function AccountRequest(b: BadgeRef): LoadRequest {
    LoadRequest(b.icon, 0.0, 15.0, 60.0, BadgeLoadFailed(b.name))
  }

  function CustomRequest(badge: string, env: Env): LoadRequest {
    LoadRequest(env.parsePng(badge), 10.0, 22.0, 46.0, CustomBadgeLoadFailed(badge))
  }

  function AccountRequests(badges: seq<BadgeRef>): seq<LoadRequest> {
    seq(|badges|, i requires 0 <= i < |badges| => AccountRequest(badges[i]))
  }

  function CustomRequests(badges: seq<string>, env: Env): seq<LoadRequest> {
    seq(|badges|, i requires 0 <= i < |badges| => CustomRequest(badges[i], env))
  }

  /** Loads the requests in order; the first one that fails ends it with its error. */
  function LoadBadges(reqs: seq<LoadRequest>, load: string -> Option<Image>): Result<seq<Badge>, Error>
    decreases |reqs|
  {
    if reqs == [] then Success([])
    else
      var done :- LoadBadges(reqs[..|reqs| - 1], load);
      var req := reqs[|reqs| - 1];
      match load(req.source)
      case None => Failure(req.failure)
      case Some(img) => Success(done + [Badge(img, req.x, req.y, req.w)])
  }

  /**
   * Loading succeeds exactly when every image loads, and then yields one
   * badge per request, in order; otherwise the error is that of the first
   * request whose image does not load.
   */
  lemma {:induction false} LoadBadgesSpec(reqs: seq<LoadRequest>, load: string -> Option<Image>)
    ensures LoadBadges(reqs, load).Success? <==> forall i :: 0 <= i < |reqs| ==> load(reqs[i].source).Some?
    ensures LoadBadges(reqs, load).Success? ==>
      var r := LoadBadges(reqs, load).value;
      && |r| == |reqs|
      && forall i :: 0 <= i < |reqs| ==>
           r[i] == Badge(load(reqs[i].source).value, reqs[i].x, reqs[i].y, reqs[i].w)
    ensures LoadBadges(reqs, load).Failure? ==>
      exists i :: 0 <= i < |reqs| && load(reqs[i].source).None?
        && LoadBadges(reqs, load).error == reqs[i].failure
        && forall k :: 0 <= k < i ==> load(reqs[k].source).Some?
  {
    if reqs != [] {
      var n := |reqs| - 1;
      var front := reqs[..n];
      LoadBadgesSpec(front, load);
      assert forall i :: 0 <= i < n ==> front[i] == reqs[i];
      if LoadBadges(front, load).Failure? {
        var i :| 0 <= i < n && load(front[i].source).None? && LoadBadges(front, load).error == front[i].failure
          && forall k :: 0 <= k < i ==> load(front[k].source).Some?;
        assert load(reqs[i].source).None?;
      }
    }
  }

  /** Once a prefix of the requests fails, the whole load fails with the same error. */
  lemma {:induction false} LoadBadgesPrefixFailure(reqs: seq<LoadRequest>, k: nat, load: string -> Option<Image>)
    requires k <= |reqs| && LoadBadges(reqs[..k], load).Failure?
    ensures LoadBadges(reqs, load) == LoadBadges(reqs[..k], load)
    decreases |reqs|
  {
    if k < |reqs| {
      var n := |reqs| - 1;
      assert reqs[..n][..k] == reqs[..k];
      LoadBadgesPrefixFailure(reqs[..n], k, load);
    } else {
      assert reqs[..k] == reqs;
    }
  }

  /**
   * `getBadges`: the account badges in reverse order with the account
   * preset, then the custom badges in order with the custom preset; custom
   * badges replace the account ones when `overwriteBadges` is set. Every
   * image is loaded, in that order, and the first failure ends it.
   */
  function BadgeList(account: seq<BadgeRef>, custom: seq<string>, overwrite: bool, env: Env)
    : Result<seq<Badge>, Error>
  {
    var own :- LoadBadges(AccountRequests(Reversed(account)), env.loadImage);
    var kept := if |custom| > 0 && overwrite then own[|own|..] else own;
    var extra :- if |custom| > 0 then LoadBadges(CustomRequests(custom, env), env.loadImage) else Success([]);
    Success(kept + extra)
  }

  /** How many account badges stay in the list. */
  function KeptAccountBadges(account: seq<BadgeRef>, custom: seq<string>, overwrite: bool): nat {
    if overwrite && |custom| > 0 then 0 else |account|
  }

  lemma BadgeListContents(account: seq<BadgeRef>, custom: seq<string>, overwrite: bool, env: Env)
    requires BadgeList(account, custom, overwrite, env).Success?
    ensures var r := BadgeList(account, custom, overwrite, env).value;
      var kept := KeptAccountBadges(account, custom, overwrite);
      && |r| == kept + |custom|
      && (forall k :: 0 <= k < kept ==>
            env.loadImage(account[|account| - 1 - k].icon) == Some(r[k].image)
            && r[k].x == 0.0 && r[k].y == 15.0 && r[k].w == 60.0)
      && (forall j :: 0 <= j < |custom| ==>
            env.loadImage(env.parsePng(custom[j])) == Some(r[kept + j].image)
            && r[kept + j].x == 10.0 && r[kept + j].y == 22.0 && r[kept + j].w == 46.0)
  {
    var rev := Reversed(account);
    var own := AccountRequests(rev);
    ReversedLength(account);
    LoadBadgesSpec(own, env.loadImage);
    var cust := CustomRequests(custom, env);
    LoadBadgesSpec(cust, env.loadImage);
    forall k | 0 <= k < |account|
      ensures own[k].source == account[|account| - 1 - k].icon
    {
      ReversedAt(account, k);
    }
  }

  /**
   * Rendering fails on badges exactly when some account badge or some custom
   * badge does not load; `overwriteBadges` does not spare the account badges
   * from being loaded, and their failures are reported first.
   */
  lemma BadgeListFails(account: seq<BadgeRef>, custom: seq<string>, overwrite: bool, env: Env)
    ensures var r := BadgeList(account, custom, overwrite, env);
      var accountFails := exists i :: 0 <= i < |account| && env.loadImage(account[i].icon).None?;
      var customFails := exists j :: 0 <= j < |custom| && env.loadImage(env.parsePng(custom[j])).None?;
      && (r.Failure? <==> accountFails || customFails)
      && (r.Failure? && accountFails ==> r.error.BadgeLoadFailed?)
      && (r.Failure? && !accountFails ==> r.error.CustomBadgeLoadFailed?)
  {
    var rev := Reversed(account);
    var own := AccountRequests(rev);
    ReversedLength(account);
    LoadBadgesSpec(own, env.loadImage);
    var cust := CustomRequests(custom, env);
    LoadBadgesSpec(cust, env.loadImage);
    forall k | 0 <= k < |account|
      ensures own[k].source == account[|account| - 1 - k].icon
      ensures own[|account| - 1 - k].source == account[k].icon
    {
      ReversedAt(account, k);
      ReversedAt(account, |account| - 1 - k);
    }
    var accountFails := exists i :: 0 <= i < |account| && env.loadImage(account[i].icon).None?;
    var customFails := exists j :: 0 <= j < |custom| && env.loadImage(env.parsePng(custom[j])).None?;
    var r := BadgeList(account, custom, overwrite, env);
    if LoadBadges(own, env.loadImage).Failure? {
      var i :| 0 <= i < |own| && env.loadImage(own[i].source).None? && LoadBadges(own, env.loadImage).error == own[i].failure;
      assert env.loadImage(account[|account| - 1 - i].icon).None?;
      assert accountFails;
      assert r == Failure(own[i].failure);
    } else {
      assert !accountFails by {
        forall i | 0 <= i < |account|
          ensures env.loadImage(account[i].icon).Some?
        {
          assert own[|account| - 1 - i].source == account[i].icon;
        }
      }
      if |custom| == 0 {
        assert r.Success?;
      } else if LoadBadges(cust, env.loadImage).Failure? {
        var j :| 0 <= j < |cust| && env.loadImage(cust[j].source).None? && LoadBadges(cust, env.loadImage).error == cust[j].failure;
        assert customFails;
        assert r == Failure(cust[j].failure);
      } else {
        assert !customFails by {
          forall j | 0 <= j < |custom|
            ensures env.loadImage(env.parsePng(custom[j])).Some?
          {
            assert cust[j].source == env.parsePng(custom[j]);
          }
        }
      }
    }
  }

  /**
   * One of the loading loops of `getBadges`: loads each request in turn and
   * returns at the first image that does not load.
   */
  method LoadEach(reqs: seq<LoadRequest>, load: string -> Option<Image>)
    returns (r: Result<seq<Badge>, Error>)
    ensures r == LoadBadges(reqs, load)
  {
    var loaded: seq<Badge> := [];
    var i := 0;
    while i < |reqs|
      invariant 0 <= i <= |reqs|
      invariant LoadBadges(reqs[..i], load) == Success(loaded)
    {
      var req := reqs[i];
      assert reqs[..i + 1][..i] == reqs[..i];
      var canvas := load(req.source);
      if canvas.None? {
        LoadBadgesPrefixFailure(reqs, i + 1, load);
        assert reqs[..|reqs|] == reqs;
        return Failure(req.failure);
      }
      loaded := loaded + [Badge(canvas.value, req.x, req.y, req.w)];
      i := i + 1;
    }
    assert reqs[..|reqs|] == reqs;
    r := Success(loaded);
  }

  /**
   * `getBadges` as written: reverses the caller's array in place, loads the
   * account badges, splices them out when custom badges overwrite them, then
   * loads and appends the custom badges.
   */
  method GetBadges(badges: array<BadgeRef>, custom: seq<string>, overwrite: bool, env: Env)
    returns (r: Result<seq<Badge>, Error>)
    modifies badges
    ensures badges[..] == Reversed(old(badges[..]))
    ensures r == BadgeList(old(badges[..]), custom, overwrite, env)
  {
    ReverseInPlace(badges);
    var n := badges.Length;
    var own := LoadEach(AccountRequests(badges[..]), env.loadImage);
    if own.Failure? {
      return Failure(own.error);
    }
    var canvasBadges := own.value;
    if |custom| > 0 {
      LoadBadgesSpec(AccountRequests(badges[..]), env.loadImage);
      if overwrite {
        canvasBadges := canvasBadges[n..];
      }
      var extra := LoadEach(CustomRequests(custom, env), env.loadImage);
      if extra.Failure? {
        return Failure(extra.error);
      }
      canvasBadges := canvasBadges + extra.value;
    } else {
      assert canvasBadges + [] == canvasBadges;
    }
    r := Success(canvasBadges);
  }

  /** `badges.reverse()`. */
  method ReverseInPlace(a: array<BadgeRef>)
    modifies a
    ensures a[..] == Reversed(old(a[..]))
  {
    var n, i := a.Length, 0;
    while i < n / 2
      invariant 0 <= i <= n / 2
      invariant forall k :: 0 <= k < i ==> a[k] == old(a[n - 1 - k]) && a[n - 1 - k] == old(a[k])
      invariant forall k :: i <= k < n - i ==> a[k] == old(a[k])
    {
      a[i], a[n - 1 - i] := a[n - 1 - i], a[i];
      i := i + 1;
    }
    ghost var was := old(a[..]);
    ReversedLength(was);
    forall k | 0 <= k < n
      ensures a[..][k] == Reversed(was)[k]
    {
      ReversedAt(was, k);
    }
  }

  // -------------------------------------------------------------- genBadges

  /** `str.includes('left')`. */
  predicate IncludesLeft(s: string)
    decreases |s|
  {
    |s| >= 4 && (s[..4] == "left" || IncludesLeft(s[1..]))
  }

  /** `badgePosition || 'top-right'`. */
  function BadgePosition(o: ProfileOptions): string {
    if o.badgePosition != "" then o.badgePosition else "top-right"
  }

  /** The anchor of the first badge; a position outside the four corners uses the top-right one. */
  function AnchorStart(position: string): (p: Point)
    ensures p.x == 85.0 <==> position == "top-left" || position == "bottom-left"
    ensures p.y == 227.0 <==> position == "bottom-left" || position == "bottom-right"
    ensures position != "top-left" && position != "bottom-left" && position != "bottom-right"
      ==> p == Point(800.0, 15.0)
  {
    match position
    case "top-left" => Point(85.0, 15.0)
    case "bottom-right" => Point(800.0, 227.0)
    case "bottom-left" => Point(85.0, 227.0)
    case _ => Point(800.0, 15.0)
  }

  /** Where the badges start, which way they run, and how they are scaled and faded. */
  datatype BadgeLayout = BadgeLayout(start: Point, leftAlign: bool, spacing: real, opacity: real, scale: real)

  function LayoutOf(o: ProfileOptions): BadgeLayout {
    var position := BadgePosition(o);
    BadgeLayout(AnchorStart(position), IncludesLeft(position),
      o.badgeSpacing.GetOr(59.0), o.badgeOpacity.GetOr(1.0), o.badgeScale.GetOr(1.0))
  }

  /** The cursor at the k-th badge: k steps of the spacing away from the anchor, rightwards when left-aligned. */
  function Cursor(layout: BadgeLayout, k: nat): real {
    if layout.leftAlign then layout.start.x + k as real * layout.spacing
    else layout.start.x - k as real * layout.spacing
  }

  lemma CursorStep(layout: BadgeLayout, k: nat)
    ensures Cursor(layout, k + 1)
      == if layout.leftAlign then Cursor(layout, k) + layout.spacing else Cursor(layout, k) - layout.spacing
  {
    assert (k + 1) as real * layout.spacing == k as real * layout.spacing + layout.spacing;
  }

  /**
   * The square the k-th badge is drawn in: the preset x offset applies only
   * when right-aligned, the y offset only when it is not 15.
   */
  function BadgeRect(layout: BadgeLayout, k: nat, b: Badge): Rect {
    var size := b.w * layout.scale;
    Rect(
      if layout.leftAlign then Cursor(layout, k) else Cursor(layout, k) + b.x * layout.scale,
      layout.start.y + (if b.y != 15.0 then b.y * layout.scale else 0.0),
      size, size)
  }

  function BadgeCmd(layout: BadgeLayout, k: nat, b: Badge): Cmd {
    DrawImage(Loaded(b.image), BadgeRect(layout, k, b), layout.opacity, NoFilter)
  }

  function BadgesLayer(badges: seq<Badge>, o: ProfileOptions): Layer {
    Layer(Badges, seq(|badges|, k requires 0 <= k < |badges| => BadgeCmd(LayoutOf(o), k, badges[k])))
  }

  /**
   * `genBadges`: a cursor walks from the anchor by the spacing, one badge at
   * a time; the k-th badge lands where the closed-form cursor puts it.
   */
  method GenBadges(badges: seq<Badge>, o: ProfileOptions) returns (l: Layer)
    ensures l.kind == Badges && |l.cmds| == |badges|
    ensures forall k :: 0 <= k < |badges| ==> l.cmds[k] == BadgeCmd(LayoutOf(o), k, badges[k])
  {
    var layout := LayoutOf(o);
    var x := layout.start.x;
    var cmds := [];
    var k := 0;
    while k < |badges|
      invariant 0 <= k <= |badges|
      invariant x == Cursor(layout, k)
      invariant |cmds| == k
      invariant forall j :: 0 <= j < k ==> cmds[j] == BadgeCmd(layout, j, badges[j])
    {
      var b := badges[k];
      var scaledW := b.w * layout.scale;
      var xPos := if layout.leftAlign then x else x + b.x * layout.scale;
      var yPos := layout.start.y + (if b.y != 15.0 then b.y * layout.scale else 0.0);
      assert Rect(xPos, yPos, scaledW, scaledW) == BadgeRect(layout, k, b);
      cmds := cmds + [DrawImage(Loaded(b.image), Rect(xPos, yPos, scaledW, scaledW), layout.opacity, NoFilter)];
      CursorStep(layout, k);
      x := if layout.leftAlign then x + layout.spacing else x - layout.spacing;
      k := k + 1;
    }
    l := Layer(Badges, cmds);
  }

  /**
   * Neighbouring badges of the same preset sit one spacing apart: to the
   * right when the position names the left side, to the left otherwise.
   */
  lemma NeighbouringBadges(layout: BadgeLayout, k: nat, b: Badge, c: Badge)
    requires b.x == c.x && b.y == c.y && b.w == c.w
    ensures BadgeRect(layout, k + 1, c).x - BadgeRect(layout, k, b).x
      == (if layout.leftAlign then layout.spacing else -layout.spacing)
    ensures BadgeRect(layout, k + 1, c).y == BadgeRect(layout, k, b).y
  {
  }

  /**
   * An account badge (offset y 15) sits on the anchor's row; the badge
   * sizes are the preset widths times the badge scale.
   */
  lemma AccountBadgeOnAnchorRow(layout: BadgeLayout, k: nat, img: Image)
    ensures var r := BadgeRect(layout, k, Badge(img, 0.0, 15.0, 60.0));
      r.y == layout.start.y && r.w == r.h == 60.0 * layout.scale
      && r.x == Cursor(layout, k)
  {
  }
}
