/**
 The connection limits: the set of pending addresses and the per-IP charges.

 The functions specify the mutating methods of `ConnectionLimits`; the lemmas relate the
 charges to the set of addresses that currently own one.
 */
module Limits {
  import opened Net

  datatype LimitsView = LimitsView(connecting: set<SocketAddr>, ipCounts: map<Ip, nat>)

  function IpCountOf(l: LimitsView, addr: SocketAddr): nat {
    var ip := CanonicalIp(addr);
    if ip in l.ipCounts then l.ipCounts[ip] else 0
  }

  function Reserved(l: LimitsView, addr: SocketAddr): LimitsView {
    LimitsView(l.connecting + {addr}, l.ipCounts[CanonicalIp(addr) := IpCountOf(l, addr) + 1])
  }

  /** The branch the library guards with a debug assertion: a release without a bucket. */
  predicate DoubleRelease(l: LimitsView, addr: SocketAddr) {
    CanonicalIp(addr) !in l.ipCounts
  }

  function ReleasedIp(l: LimitsView, addr: SocketAddr): LimitsView {
    var ip := CanonicalIp(addr);
    if ip !in l.ipCounts then l
    else if l.ipCounts[ip] > 1 then l.(ipCounts := l.ipCounts[ip := l.ipCounts[ip] - 1])
    else l.(ipCounts := l.ipCounts - {ip})
  }

  /** What a guard's drop does: the pending mark goes, and so does the charge unless the
      connection was finalized. */
  function GuardDropped(l: LimitsView, addr: SocketAddr, completed: bool): LimitsView {
    var cleared := l.(connecting := l.connecting - {addr});
    if completed then cleared else ReleasedIp(cleared, addr)
  }

  /** The members of `addrs` that are charged to `ip`. */
  ghost function OnIp(addrs: set<SocketAddr>, ip: Ip): set<SocketAddr> {
    set a | a in addrs && CanonicalIp(a) == ip
  }

  /** Every IP is charged for exactly its owners, and a bucket exists only while it is not
      empty. */
  ghost predicate ChargesMatch(l: LimitsView, owners: set<SocketAddr>) {
    forall ip ::
      if ip in l.ipCounts then l.ipCounts[ip] == |OnIp(owners, ip)| > 0 else OnIp(owners, ip) == {}
  }

  lemma ReserveCharges(l: LimitsView, owners: set<SocketAddr>, addr: SocketAddr)
    requires ChargesMatch(l, owners) && addr !in owners
    ensures ChargesMatch(Reserved(l, addr), owners + {addr})
  {
    var l', ip' := Reserved(l, addr), CanonicalIp(addr);
    forall ip
      ensures if ip in l'.ipCounts then l'.ipCounts[ip] == |OnIp(owners + {addr}, ip)| > 0
        else OnIp(owners + {addr}, ip) == {}
    {
      OneMoreOn(owners, addr, ip);
      assert ip != ip' ==> (ip in l'.ipCounts <==> ip in l.ipCounts);
    }
  }

  lemma OneMoreOn(owners: set<SocketAddr>, addr: SocketAddr, ip: Ip)
    requires addr !in owners
    ensures OnIp(owners + {addr}, ip)
         == if ip == CanonicalIp(addr) then OnIp(owners, ip) + {addr} else OnIp(owners, ip)
    ensures addr !in OnIp(owners, ip)
  {
  }

  /** Giving back a charge that is owned never meets the double-release branch, and leaves the
      remaining owners exactly charged. */
  lemma ReleaseCharges(l: LimitsView, owners: set<SocketAddr>, addr: SocketAddr)
    requires ChargesMatch(l, owners) && addr in owners
    ensures !DoubleRelease(l, addr)
    ensures ChargesMatch(ReleasedIp(l, addr), owners - {addr})
  {
    assert addr in OnIp(owners, CanonicalIp(addr));
    forall ip
      ensures OnIp(owners - {addr}, ip)
           == if ip == CanonicalIp(addr) then OnIp(owners, ip) - {addr} else OnIp(owners, ip)
    {
    }
    var rest := OnIp(owners - {addr}, CanonicalIp(addr));
    assert |rest| == |OnIp(owners, CanonicalIp(addr))| - 1;
  }

  /** The limits as the node keeps them, behind its `limits` lock. */
  class ConnectionLimits {
    var connecting: set<SocketAddr>
    var ipCounts: map<Ip, nat>

    constructor ()
      ensures View() == LimitsView({}, map[])
      ensures ChargesMatch(View(), {})
    {
      connecting, ipCounts := {}, map[];
    }

    function View(): LimitsView
      reads this
    {
      LimitsView(connecting, ipCounts)
    }

    method Reserve(addr: SocketAddr)
      modifies this
      ensures View() == Reserved(old(View()), addr)
    {
      connecting := connecting + {addr};
      var ip := CanonicalIp(addr);
      if ip !in ipCounts {
        ipCounts := ipCounts[ip := 0];
      }
      ipCounts := ipCounts[ip := ipCounts[ip] + 1];
    }

    method IpCount(addr: SocketAddr) returns (n: nat)
      ensures n == IpCountOf(View(), addr)
      ensures forall owners :: ChargesMatch(View(), owners) ==> n == |OnIp(owners, CanonicalIp(addr))|
    {
      var ip := CanonicalIp(addr);
      n := if ip in ipCounts then ipCounts[ip] else 0;
    }

    method ReleaseIp(addr: SocketAddr) returns (doubleRelease: bool)
      modifies this`ipCounts
      ensures View() == ReleasedIp(old(View()), addr)
      ensures doubleRelease <==> DoubleRelease(old(View()), addr)
    {
      var ip := CanonicalIp(addr);
      doubleRelease := ip !in ipCounts;
      if ip in ipCounts {
        if ipCounts[ip] > 1 {
          ipCounts := ipCounts[ip := ipCounts[ip] - 1];
        } else {
          ipCounts := ipCounts - {ip};
        }
      }
    }

    /** `ConnectionGuard`'s drop, for the guard of `addr`. */
    method DropGuard(addr: SocketAddr, completed: bool) returns (doubleRelease: bool)
      modifies this
      ensures View() == GuardDropped(old(View()), addr, completed)
      ensures doubleRelease <==> !completed && DoubleRelease(old(View()), addr)
    {
      connecting := connecting - {addr};
      doubleRelease := false;
      if !completed {
        doubleRelease := ReleaseIp(addr);
      }
    }
  }
}
