/** The invariant of the credential protocol that holds in every run, whatever the
    interleaving: contents of the three files, handlers, worker and history agree. */
module ProtocolInvariant {
  import opened Credentials
  import opened DurableFile
  import opened CredentialProtocol
  import Q = RevocationQueue
  import R = RotationReceipts

  ghost predicate OlderThan(g: Gen, token: nat) {
    g == NoGen || (g.CredGen? && g.token < token)
  }

  ghost predicate TaskWf(s: Sys, t: Q.Task) {
    && t.kickSuccesses <= 2
    && if t.target == UserDeleted then
         t.previous.RevisionOf? && t.previous.entry.Account? && t.previous.entry.cred < s.nextToken
       else
         t.target.CredGen? && 0 < t.target.token < s.nextToken && OlderThan(t.previous, t.target.token)
  }

  ghost predicate Names(q: Q.Tasks, id: Key, user: User, target: Gen) {
    id in q && q[id].user == user && q[id].target == target
  }

  /** The user has moved beyond this account incarnation: gone, or on a later credential. */
  ghost predicate Past(users: Users, user: User, entry: Entry)
    requires entry.Account?
  {
    user !in users || (users[user].Account? && users[user].cred > entry.cred)
  }

  ghost predicate Target(s: Sys, g: Gen) {
    g == UserDeleted || (g.CredGen? && g.token < s.nextToken)
  }

  ghost predicate UsersCore(s: Sys, c: Users) {
    forall u :: u in c ==> CredOf(c, u) < s.nextToken
  }

  ghost predicate ReceiptsCore(s: Sys, c: R.Receipts) {
    && (forall k :: k in c ==>
          && 0 < c[k].token < s.nextToken
          && c[k].previous.CredGen? && c[k].previous.token < c[k].token
          && (c[k].token in s.installs && c[k].user in s.users.visible ==>
                CredOf(s.users.visible, c[k].user) >= c[k].token))
    && (forall k, l :: k in c && l in c && c[k].token == c[l].token ==> k == l)
  }

  ghost predicate QueueCore(s: Sys, q: Q.Tasks) {
    && (forall id :: id in q ==>
          && TaskWf(s, q[id]) && id in s.used
          && (IsDeletion(q[id]) ==> id in s.nonces && id !in s.rotating)
          && (IsDeletion(q[id]) && q[id].kickSuccesses >= 1 ==> id in s.passed || id in s.kicked)
          && (IsDeletion(q[id]) && q[id].kickSuccesses >= 2 ==> id in s.passed))
    && (forall id :: id in s.deleting && id in q ==>
          Q.Bound(q[id], s.deleting[id].user, RevisionOf(s.deleting[id].entry), UserDeleted))
    && (s.worker.Claimed? && IsDeletion(s.worker.task) ==>
          var t := s.worker.task;
          t.previous.RevisionOf? && t.previous.entry.Account? &&
          (Names(q, s.worker.id, t.user, UserDeleted) || Past(s.users.visible, t.user, t.previous.entry)))
  }

  ghost predicate HandlersCore(s: Sys) {
    && s.rotating <= s.used && s.kicked <= s.used && s.passed <= s.used && s.nonces <= s.used
    && forall id :: id in s.deleting ==>
         var d := s.deleting[id];
         && id in s.used && id in s.nonces && id !in s.kicked && id !in s.rotating
         && d.entry.Account? && d.entry.cred < s.nextToken
         && ((d.user in s.users.visible && s.users.visible[d.user] == d.entry)
             || Past(s.users.visible, d.user, d.entry))
         && (id in s.passed ==> Past(s.users.visible, d.user, d.entry))
  }

  ghost predicate WorkerCore(s: Sys) {
    !s.worker.Idle? ==>
      && s.worker.id in s.used && TaskWf(s, s.worker.task)
      && (IsDeletion(s.worker.task) ==> s.worker.id in s.nonces)
      && (s.worker.Decided? && s.worker.verdict.Proceed? && IsDeletion(s.worker.task) ==> s.worker.id in s.passed)
      && (s.worker.Decided? && s.worker.verdict.Retire? ==> !IsDeletion(s.worker.task))
      && (forall q :: q in s.queue.possible && s.worker.id in q ==>
            (IsDeletion(q[s.worker.id]) <==> IsDeletion(s.worker.task)))
      && (s.worker.id in s.deleting ==>
            IsDeletion(s.worker.task) && s.worker.task.user == s.deleting[s.worker.id].user
            && s.worker.task.previous == RevisionOf(s.deleting[s.worker.id].entry))
  }

  ghost predicate ShowsSomewhere(f: File<Users>, user: User, target: Gen) {
    exists c :: c in f.possible && ShowsEffect(c, user, target)
  }

  /** Either the visible content shows the latest commit, or no possible content does. */
  ghost predicate HistoryCore(s: Sys) {
    && (forall u :: u in s.last ==>
          && Target(s, s.last[u].target)
          && (ShowsSomewhere(s.users, u, s.last[u].target) ==> ShowsEffect(s.users.visible, u, s.last[u].target)))
    && (forall t :: s.installs[t] <= 1)
    && (forall t :: t in s.installs ==> 0 < t < s.nextToken)
  }

  ghost predicate Core(s: Sys) {
    && Coherent(s.users) && Coherent(s.queue) && Coherent(s.receipts)
    && s.nextToken > 0
    && (forall c :: c in s.users.possible ==> UsersCore(s, c))
    && (forall c :: c in s.queue.possible ==> QueueCore(s, c))
    && (forall c :: c in s.receipts.possible ==> ReceiptsCore(s, c))
    && HandlersCore(s) && WorkerCore(s) && HistoryCore(s)
  }

  // ------------------------------------------------------------- single-file saves

  lemma ReceiptsSaved(s: Sys, c: R.Receipts, o: Outcome)
    requires Core(s) && ReceiptsCore(s, c)
    ensures Core(s.(receipts := Written(s.receipts, c, o)))
  {
    var n := s.(receipts := Written(s.receipts, c, o));
    forall d | d in n.receipts.possible ensures ReceiptsCore(n, d) {
      assert ReceiptsCore(s, d);
    }
    forall d | d in n.queue.possible ensures QueueCore(n, d) {
      assert QueueCore(s, d);
    }
    forall d | d in n.users.possible ensures UsersCore(n, d) {
      assert UsersCore(s, d);
    }
  }

  ghost predicate SameKind(s: Sys, q: Q.Tasks) {
    !s.worker.Idle? && s.worker.id in q ==> (IsDeletion(q[s.worker.id]) <==> IsDeletion(s.worker.task))
  }

  lemma QueueSaved(s: Sys, q: Q.Tasks, o: Outcome)
    requires Core(s) && QueueCore(s, q) && SameKind(s, q)
    ensures Core(s.(queue := Written(s.queue, q, o)))
  {
    var n := s.(queue := Written(s.queue, q, o));
    forall d | d in n.receipts.possible ensures ReceiptsCore(n, d) {
      assert ReceiptsCore(s, d);
    }
    forall d | d in n.queue.possible ensures QueueCore(n, d) {
      assert QueueCore(s, d);
    }
    forall d | d in n.users.possible ensures UsersCore(n, d) {
      assert UsersCore(s, d);
    }
  }

  /** What a save of users.json may change without a new commit. */
  lemma Rewritten(s: Sys, o: Outcome)
    requires Core(s)
    ensures Core(Rewrite(s, o))
  {
    var n := Rewrite(s, o);
    forall d | d in n.receipts.possible ensures ReceiptsCore(n, d) {
      assert ReceiptsCore(s, d);
    }
    forall d | d in n.queue.possible ensures QueueCore(n, d) {
      assert QueueCore(s, d);
    }
    forall d | d in n.users.possible ensures UsersCore(n, d) {
      assert d in s.users.possible;
      assert UsersCore(s, d);
    }
    forall u | u in n.last && ShowsSomewhere(n.users, u, n.last[u].target)
      ensures ShowsEffect(n.users.visible, u, n.last[u].target)
    {
      var c :| c in n.users.possible && ShowsEffect(c, u, n.last[u].target);
      assert c in s.users.possible;
      assert ShowsSomewhere(s.users, u, s.last[u].target);
    }
  }

  /** The clock and the supply of credentials only move forward. */
  lemma Advanced(s: Sys, now: nat, nextToken: nat, used: set<Key>, nonces: set<Key>)
    requires Core(s) && s.now <= now && s.nextToken <= nextToken && s.used <= used && s.nonces <= nonces <= used
    ensures Core(s.(now := now, nextToken := nextToken, used := used, nonces := nonces))
  {
    var n := s.(now := now, nextToken := nextToken, used := used, nonces := nonces);
    forall d | d in n.receipts.possible ensures ReceiptsCore(n, d) {
      assert ReceiptsCore(s, d);
    }
    forall d | d in n.queue.possible ensures QueueCore(n, d) {
      assert QueueCore(s, d);
    }
    forall d | d in n.users.possible ensures UsersCore(n, d) {
      assert UsersCore(s, d);
    }
  }

  // ---------------------------------------------------------------- users commits

  /** A content that differs from the visible one only at `user` keeps the history
      of every other user. */
  lemma OthersKeepHistory(s: Sys, n: Sys, user: User, content: Users, o: Outcome, u: User)
    requires Core(s) && n.users == Written(s.users, content, o) && !o.NotReplaced?
    requires u != user && u in s.last
    requires u in content <==> u in s.users.visible
    requires u in content ==> content[u] == s.users.visible[u]
    requires ShowsSomewhere(n.users, u, s.last[u].target)
    ensures ShowsSomewhere(s.users, u, s.last[u].target)
    ensures ShowsEffect(n.users.visible, u, s.last[u].target)
  {
    var c :| c in n.users.possible && ShowsEffect(c, u, s.last[u].target);
    if c == content {
      assert ShowsEffect(s.users.visible, u, s.last[u].target);
    } else {
      assert c in s.users.possible;
    }
  }

  lemma CommittedContent(s: Sys, bound: nat, user: User, content: Users)
    requires Core(s) && s.nextToken <= bound
    requires forall u :: u in content && u != user ==> u in s.users.visible && content[u] == s.users.visible[u]
    requires user in content ==> CredOf(content, user) < bound
    ensures forall u :: u in content ==> CredOf(content, u) < bound
  {
    assert UsersCore(s, s.users.visible);
    forall u | u in content ensures CredOf(content, u) < bound {
      if u != user {
        assert CredOf(content, u) == CredOf(s.users.visible, u);
      }
    }
  }

  /** `token` may be installed for `user`: newer than the stored credential, not
      installed since the last crash, and promised to no other user. */
  ghost predicate Installable(s: Sys, user: User, token: nat) {
    && user in s.users.visible && s.users.visible[user].Account?
    && CredOf(s.users.visible, user) < token < s.nextToken
    && token !in s.installs
    && forall c: R.Receipts, k :: c in s.receipts.possible && k in c && c[k].token == token ==> c[k].user == user
  }

  lemma PastSurvives(users: Users, user: User, token: nat, who: User, entry: Entry)
    requires user in users && users[user].Account? && users[user].cred < token
    requires entry.Account?
    ensures Past(users, who, entry) ==> Past(users[user := users[user].(cred := token)], who, entry)
    ensures who in users && users[who] == entry && who == user ==>
              Past(users[user := users[user].(cred := token)], who, entry)
  {
  }

  lemma InstalledReceipts(s: Sys, user: User, token: nat, key: Key, o: Outcome, d: R.Receipts)
    requires Core(s) && Installable(s, user, token) && !o.NotReplaced?
    requires d in s.receipts.possible
    ensures ReceiptsCore(Install(s, user, token, key, o), d)
  {
    var n := Install(s, user, token, key, o);
    assert ReceiptsCore(s, d);
    forall k | k in d && d[k].token in n.installs && d[k].user in n.users.visible
      ensures CredOf(n.users.visible, d[k].user) >= d[k].token
    {
      if d[k].token == token {
        assert d[k].user == user;
      }
    }
  }

  lemma InstalledQueue(s: Sys, user: User, token: nat, key: Key, o: Outcome, d: Q.Tasks)
    requires Core(s) && Installable(s, user, token) && !o.NotReplaced?
    requires d in s.queue.possible
    ensures QueueCore(Install(s, user, token, key, o), d)
  {
    assert QueueCore(s, d);
    if s.worker.Claimed? && IsDeletion(s.worker.task) {
      var t := s.worker.task;
      PastSurvives(s.users.visible, user, token, t.user, t.previous.entry);
    }
  }

  lemma InstalledHandlers(s: Sys, user: User, token: nat, key: Key, o: Outcome)
    requires Core(s) && Installable(s, user, token) && !o.NotReplaced?
    ensures HandlersCore(Install(s, user, token, key, o))
  {
    forall id | id in s.deleting
      ensures var d := s.deleting[id];
              var users := Install(s, user, token, key, o).users.visible;
              ((d.user in users && users[d.user] == d.entry) || Past(users, d.user, d.entry))
              && (id in s.passed ==> Past(users, d.user, d.entry))
    {
      var d := s.deleting[id];
      PastSurvives(s.users.visible, user, token, d.user, d.entry);
    }
  }

  lemma InstalledHistory(s: Sys, user: User, token: nat, key: Key, o: Outcome)
    requires Core(s) && Installable(s, user, token) && !o.NotReplaced?
    ensures HistoryCore(Install(s, user, token, key, o))
  {
    var n := Install(s, user, token, key, o);
    var content := s.users.visible[user := s.users.visible[user].(cred := token)];
    forall u | u in n.last && ShowsSomewhere(n.users, u, n.last[u].target)
      ensures ShowsEffect(n.users.visible, u, n.last[u].target)
    {
      if u != user {
        OthersKeepHistory(s, n, user, content, o, u);
      }
    }
  }

  lemma Installed(s: Sys, user: User, token: nat, key: Key, o: Outcome)
    requires Core(s) && Installable(s, user, token)
    ensures Core(Install(s, user, token, key, o))
  {
    if !o.NotReplaced? {
      var n := Install(s, user, token, key, o);
      var content := s.users.visible[user := s.users.visible[user].(cred := token)];
      forall d | d in n.receipts.possible ensures ReceiptsCore(n, d) {
        InstalledReceipts(s, user, token, key, o, d);
      }
      forall d | d in n.queue.possible ensures QueueCore(n, d) {
        InstalledQueue(s, user, token, key, o, d);
      }
      InstalledHandlers(s, user, token, key, o);
      InstalledHistory(s, user, token, key, o);
      CommittedContent(s, n.nextToken, user, content);
      forall d | d in n.users.possible ensures UsersCore(n, d) {
        if d != content {
          assert UsersCore(s, d);
        }
      }
    }
  }

  /** A commit for `user` that leaves handlers, worker and the other users alone. */
  ghost predicate UserMoved(s: Sys, n: Sys, user: User, content: Users, o: Outcome) {
    && !o.NotReplaced?
    && n == s.(users := Written(s.users, content, o), last := n.last, installs := n.installs, nextToken := n.nextToken)
    && n.nextToken >= s.nextToken
    && (forall u :: u != user ==> (u in content <==> u in s.users.visible))
    && (forall u :: u != user && u in content ==> content[u] == s.users.visible[u])
    && (forall u :: u in n.last && u != user ==> u in s.last && n.last[u] == s.last[u])
    && (user in n.last ==> Target(n, n.last[user].target) && ShowsEffect(content, user, n.last[user].target))
    && (user in content ==> user !in s.users.visible && CredOf(content, user) == s.nextToken < n.nextToken
                            && content[user].Account?)
  }

  lemma MovedHistory(s: Sys, n: Sys, user: User, content: Users, o: Outcome)
    requires Core(s) && UserMoved(s, n, user, content, o)
    requires n.installs == s.installs || (n.installs == s.installs + multiset{s.nextToken} && s.nextToken < n.nextToken)
    ensures HistoryCore(n)
  {
    forall u | u in n.last && ShowsSomewhere(n.users, u, n.last[u].target)
      ensures ShowsEffect(n.users.visible, u, n.last[u].target)
    {
      if u != user {
        OthersKeepHistory(s, n, user, content, o, u);
      }
    }
  }

  lemma MovedContents(s: Sys, n: Sys, user: User, content: Users, o: Outcome)
    requires Core(s) && UserMoved(s, n, user, content, o)
    requires n.installs == s.installs || n.installs == s.installs + multiset{s.nextToken}
    ensures forall d :: d in n.receipts.possible ==> ReceiptsCore(n, d)
    ensures forall d :: d in n.queue.possible ==> QueueCore(n, d)
  {
    forall d | d in n.receipts.possible ensures ReceiptsCore(n, d) {
      assert ReceiptsCore(s, d);
    }
    forall d | d in n.queue.possible ensures QueueCore(n, d) {
      assert QueueCore(s, d);
    }
  }

  lemma Moved(s: Sys, n: Sys, user: User, content: Users, o: Outcome)
    requires Core(s) && UserMoved(s, n, user, content, o)
    requires n.installs == s.installs || (n.installs == s.installs + multiset{s.nextToken} && s.nextToken < n.nextToken)
    ensures Core(n)
  {
    MovedHistory(s, n, user, content, o);
    MovedContents(s, n, user, content, o);
    CommittedContent(s, n.nextToken, user, content);
    forall d | d in n.users.possible ensures UsersCore(n, d) {
      if d != content {
        assert UsersCore(s, d);
      }
    }
    hide QueueCore, ReceiptsCore, HistoryCore, UsersCore;
  }

  lemma Removed(s: Sys, user: User, key: Key, o: Outcome)
    requires Core(s)
    ensures Core(Remove(s, user, key, o))
  {
    hide Core;
    if o.NotReplaced? {
    } else if user !in s.users.visible {
      Rewritten(s, o);
    } else {
      Moved(s, Remove(s, user, key, o), user, s.users.visible - {user}, o);
    }
  }

  lemma NoncesUsed(s: Sys)
    requires Core(s)
    ensures s.nonces <= s.used
  {
  }

  lemma Created(s: Sys, user: User, disabled: bool, expiresOn: nat, rest: nat, o: Outcome)
    requires Core(s)
    ensures Core(Create(s, user, disabled, expiresOn, rest, o))
  {
    var n := Create(s, user, disabled, expiresOn, rest, o);
    NoncesUsed(s);
    hide Core;
    if user in s.users.visible {
    } else if o.NotReplaced? {
      Advanced(s, s.now, s.nextToken + 1, s.used, s.nonces);
    } else {
      Moved(s, n, user, s.users.visible[user := Account(s.nextToken, disabled, expiresOn, rest)], o);
    }
  }
}
