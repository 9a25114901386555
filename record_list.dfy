/** The ordered record lists that the Experience, Education, Stories and
    Gallery sections keep, and the pure list expressions their handlers
    build: `list.map(...)` to edit by id, `list.filter(...)` to delete by id,
    and array spread to append or prepend a new record.

    A record is its string `id` plus the section-specific fields. The draft
    form buffer of a section holds exactly the non-id fields, so
    `{ ...record, ...formData }` keeps the record's id and takes every other
    field from the draft, and `{ id: fresh, ...formData }` is the record
    `Entry(fresh, draft)`. */
module RecordList {
  import opened Common

  datatype Entry<F> = Entry(id: string, fields: F)

  /** Some record of `s` has key `id`. */
  ghost predicate HasId<F>(s: seq<Entry<F>>, id: string)
  {
    exists i :: 0 <= i < |s| && s[i].id == id
  }

  /** No two records of `s` share a key. The components do not enforce this
      (fresh keys come from a millisecond clock); lemmas that need it say so. */
  ghost predicate UniqueIds<F>(s: seq<Entry<F>>)
  {
    forall i, j :: 0 <= i < j < |s| ==> s[i].id != s[j].id
  }

  /** The number of records of `s` with key `id`. */
  function CountId<F>(s: seq<Entry<F>>, id: string): nat
  {
    if s == [] then 0
    else (if s[0].id == id then 1 else 0) + CountId(s[1..], id)
  }

  /** The first record of `s` with key `id`, or `None`: what a lookup by the
      generated key finds. */
  function Lookup<F>(s: seq<Entry<F>>, id: string): (r: Option<Entry<F>>)
    ensures r.Some? ==> r.value in s && r.value.id == id
    ensures r.None? <==> !HasId(s, id)
  {
    if s == [] then None
    else if s[0].id == id then Some(s[0])
    else Lookup(s[1..], id)
  }

  /** `list.map(rec => rec.id === id ? { ...rec, ...draft } : rec)`: every
      record with key `id` takes the draft's fields and keeps its key; every
      other record, the length and the order stay as they were. */
  function ReplaceById<F>(s: seq<Entry<F>>, id: string, draft: F): (r: seq<Entry<F>>)
    ensures |r| == |s|
    ensures forall i :: 0 <= i < |s| ==> r[i].id == s[i].id
    ensures forall i :: 0 <= i < |s| && s[i].id == id ==> r[i].fields == draft
    ensures forall i :: 0 <= i < |s| && s[i].id != id ==> r[i] == s[i]
  {
    if s == [] then []
    else [if s[0].id == id then Entry(s[0].id, draft) else s[0]] + ReplaceById(s[1..], id, draft)
  }

  /** `list.filter(rec => rec.id !== id)`: a list without that key is
      returned unchanged (which records remain: `RemoveByIdMembers`). */
  function RemoveById<F>(s: seq<Entry<F>>, id: string): (r: seq<Entry<F>>)
    ensures |r| <= |s|
    ensures !HasId(s, id) ==> r == s
  {
    if s == [] then []
    else if s[0].id == id then RemoveById(s[1..], id)
    else [s[0]] + RemoveById(s[1..], id)
  }

  /** Exactly the records whose key is not `id` remain after a delete. */
  lemma {:induction false} RemoveByIdMembers<F>(s: seq<Entry<F>>, id: string)
    ensures forall e :: e in RemoveById(s, id) ==> e in s && e.id != id
    ensures forall e :: e in s && e.id != id ==> e in RemoveById(s, id)
    ensures !HasId(RemoveById(s, id), id)
  {
    if s != [] {
      RemoveByIdMembers(s[1..], id);
      assert s == [s[0]] + s[1..];
    }
    var r := RemoveById(s, id);
    forall i | 0 <= i < |r| ensures r[i].id != id {
      assert r[i] in r;
    }
  }

  /** `handleSave` of Experience and Education: with a truthy editing id the
      records with that key take the draft; otherwise the record
      `{ id: freshId, ...draft }` is appended after the existing ones. */
  function SaveAppending<F>(s: seq<Entry<F>>, editingId: Option<string>, draft: F, freshId: string)
    : (r: seq<Entry<F>>)
    ensures IsTruthy(editingId) ==>
      |r| == |s| &&
      (forall i :: 0 <= i < |s| ==> r[i].id == s[i].id) &&
      (forall i :: 0 <= i < |s| ==> r[i] == if s[i].id == editingId.value then Entry(s[i].id, draft) else s[i])
    ensures !IsTruthy(editingId) ==>
      |r| == |s| + 1 && r[..|s|] == s && r[|s|] == Entry(freshId, draft)
  {
    if IsTruthy(editingId) then ReplaceById(s, editingId.value, draft)
    else s + [Entry(freshId, draft)]
  }

  /** `handleSave` of Stories: the edit branch is that of `SaveAppending`;
      a new story goes in front of the existing ones. */
  function SavePrepending<F>(s: seq<Entry<F>>, editingId: Option<string>, draft: F, freshId: string)
    : (r: seq<Entry<F>>)
    ensures IsTruthy(editingId) ==>
      |r| == |s| &&
      (forall i :: 0 <= i < |s| ==> r[i].id == s[i].id) &&
      (forall i :: 0 <= i < |s| ==> r[i] == if s[i].id == editingId.value then Entry(s[i].id, draft) else s[i])
    ensures !IsTruthy(editingId) ==>
      |r| == |s| + 1 && r[0] == Entry(freshId, draft) && r[1..] == s
  {
    if IsTruthy(editingId) then ReplaceById(s, editingId.value, draft)
    else [Entry(freshId, draft)] + s
  }

  // ---------------------------------------------------------------------
  // Lookup after each kind of save

  /** A record appended under a key no earlier record has is found by that key. */
  lemma {:induction false} AppendedIsFound<F>(s: seq<Entry<F>>, freshId: string, draft: F)
    requires !HasId(s, freshId)
    ensures Lookup(s + [Entry(freshId, draft)], freshId) == Some(Entry(freshId, draft))
  {
    if s != [] {
      assert (s + [Entry(freshId, draft)])[1..] == s[1..] + [Entry(freshId, draft)];
      assert !HasId(s[1..], freshId) by {
        forall i | 0 <= i < |s[1..]| ensures s[1..][i].id != freshId {
          assert s[1..][i] == s[i + 1];
        }
      }
      AppendedIsFound(s[1..], freshId, draft);
    }
  }

  /** A prepended record is found by its key, whatever the rest holds. */
  lemma PrependedIsFound<F>(s: seq<Entry<F>>, freshId: string, draft: F)
    ensures Lookup([Entry(freshId, draft)] + s, freshId) == Some(Entry(freshId, draft))
  {
  }

  /** After an edit of a key that is present, a lookup by that key finds the
      record carrying the draft. */
  lemma {:induction false} EditedIsFound<F>(s: seq<Entry<F>>, id: string, draft: F)
    requires HasId(s, id)
    ensures Lookup(ReplaceById(s, id, draft), id) == Some(Entry(id, draft))
  {
    if s[0].id != id {
      var i :| 0 <= i < |s| && s[i].id == id;
      assert s[1..][i - 1].id == id;
      EditedIsFound(s[1..], id, draft);
    }
  }

  /** After a delete, no record with the key is left to find. */
  lemma RemovedIsGone<F>(s: seq<Entry<F>>, id: string)
    ensures Lookup(RemoveById(s, id), id) == None
    ensures CountId(RemoveById(s, id), id) == 0
  {
    RemoveByIdMembers(s, id);
    NoIdCountsZero(RemoveById(s, id), id);
  }

  /** A list without the key counts zero records with it. */
  lemma {:induction false} NoIdCountsZero<F>(s: seq<Entry<F>>, id: string)
    requires !HasId(s, id)
    ensures CountId(s, id) == 0
  {
    if s != [] {
      assert !HasId(s[1..], id) by {
        forall i | 0 <= i < |s[1..]| ensures s[1..][i].id != id {
          assert s[1..][i] == s[i + 1];
        }
      }
      NoIdCountsZero(s[1..], id);
    }
  }

  // ---------------------------------------------------------------------
  // Delete

  /** Delete shortens the list by exactly the number of records with the key. */
  lemma {:induction false} RemoveByIdLength<F>(s: seq<Entry<F>>, id: string)
    ensures |RemoveById(s, id)| == |s| - CountId(s, id)
  {
    if s != [] {
      RemoveByIdLength(s[1..], id);
    }
  }

  /** Delete works segment by segment, so the surviving records keep their
      relative order. */
  lemma {:induction false} RemoveByIdConcat<F>(a: seq<Entry<F>>, b: seq<Entry<F>>, id: string)
    ensures RemoveById(a + b, id) == RemoveById(a, id) + RemoveById(b, id)
  {
    if a == [] {
      assert a + b == b;
    } else {
      var c := a + b;
      assert c[0] == a[0] && c[1..] == a[1..] + b;
      RemoveByIdConcat(a[1..], b, id);
      if a[0].id != id {
        calc {
          RemoveById(c, id);
          [a[0]] + RemoveById(a[1..] + b, id);
          [a[0]] + (RemoveById(a[1..], id) + RemoveById(b, id));
          ([a[0]] + RemoveById(a[1..], id)) + RemoveById(b, id);
          RemoveById(a, id) + RemoveById(b, id);
        }
      }
    }
  }

  /** With a single record under the key, delete removes exactly that record
      and leaves the ones before and after it in place. */
  lemma RemoveOnly<F>(s: seq<Entry<F>>, k: int, id: string)
    requires 0 <= k < |s| && s[k].id == id
    requires forall j :: 0 <= j < |s| && j != k ==> s[j].id != id
    ensures RemoveById(s, id) == s[..k] + s[k + 1..]
    ensures |RemoveById(s, id)| == |s| - 1
  {
    var before, after := s[..k], s[k + 1..];
    assert s == before + [s[k]] + after;
    assert !HasId(before, id) by {
      forall i | 0 <= i < |before| ensures before[i].id != id {
        assert before[i] == s[i];
      }
    }
    assert !HasId(after, id) by {
      forall i | 0 <= i < |after| ensures after[i].id != id {
        assert after[i] == s[k + 1 + i];
      }
    }
    assert RemoveById([s[k]], id) == [] by {
      assert [s[k]][1..] == [];
    }
    RemoveByIdConcat(before + [s[k]], after, id);
    RemoveByIdConcat(before, [s[k]], id);
  }

  /** With unique keys, deleting the key of record `k` removes that record
      and nothing else. */
  lemma RemoveUnique<F>(s: seq<Entry<F>>, k: int)
    requires UniqueIds(s) && 0 <= k < |s|
    ensures RemoveById(s, s[k].id) == s[..k] + s[k + 1..]
  {
    RemoveOnly(s, k, s[k].id);
  }

  /** Deleting the same key twice is deleting it once. */
  lemma RemoveByIdIdempotent<F>(s: seq<Entry<F>>, id: string)
    ensures RemoveById(RemoveById(s, id), id) == RemoveById(s, id)
  {
    RemoveByIdMembers(s, id);
  }

  // ---------------------------------------------------------------------
  // Key uniqueness is kept by every handler

  /** Edits keep the keys, and a save that adds uses a key no existing
      record has: uniqueness of keys survives either kind of save. */
  lemma SaveKeepsUnique<F>(s: seq<Entry<F>>, editingId: Option<string>, draft: F, freshId: string)
    requires UniqueIds(s) && !HasId(s, freshId)
    ensures UniqueIds(SaveAppending(s, editingId, draft, freshId))
    ensures UniqueIds(SavePrepending(s, editingId, draft, freshId))
  {
    var p := SavePrepending(s, editingId, draft, freshId);
    if !IsTruthy(editingId) {
      forall i, j | 0 <= i < j < |p| ensures p[i].id != p[j].id {
        if i == 0 {
          assert p[j] == s[j - 1];
        } else {
          assert p[i] == s[i - 1] && p[j] == s[j - 1];
        }
      }
    }
  }

  /** Deleting drops records and keeps the rest, so unique keys stay
      unique. */
  lemma {:induction false} RemoveKeepsUnique<F>(s: seq<Entry<F>>, id: string)
    requires UniqueIds(s)
    ensures UniqueIds(RemoveById(s, id))
  {
    if s != [] {
      var rest := s[1..];
      assert UniqueIds(rest) by {
        forall i, j | 0 <= i < j < |rest| ensures rest[i].id != rest[j].id {
          assert rest[i] == s[i + 1] && rest[j] == s[j + 1];
        }
      }
      assert !HasId(rest, s[0].id) by {
        forall i | 0 <= i < |rest| ensures rest[i].id != s[0].id {
          assert rest[i] == s[i + 1];
        }
      }
      var t := RemoveById(rest, id);
      RemoveKeepsUnique(rest, id);
      RemoveKeepsAbsent(rest, id, s[0].id);
      if s[0].id != id {
        var r := [s[0]] + t;
        forall i, j | 0 <= i < j < |r| ensures r[i].id != r[j].id {
          assert r[j] == t[j - 1];
          if i > 0 {
            assert r[i] == t[i - 1];
          }
        }
      }
    }
  }

  /** A key absent from a list is absent after a delete. */
  lemma {:induction false} RemoveKeepsAbsent<F>(s: seq<Entry<F>>, id: string, other: string)
    requires !HasId(s, other)
    ensures !HasId(RemoveById(s, id), other)
  {
    if s != [] {
      var rest := s[1..];
      assert !HasId(rest, other) by {
        forall i | 0 <= i < |rest| ensures rest[i].id != other {
          assert rest[i] == s[i + 1];
        }
      }
      RemoveKeepsAbsent(rest, id, other);
      var t := RemoveById(rest, id);
      if s[0].id != id {
        var r := [s[0]] + t;
        forall i | 0 <= i < |r| ensures r[i].id != other {
          if i > 0 {
            assert r[i] == t[i - 1];
          }
        }
      }
    }
  }

  // ---------------------------------------------------------------------
  // Edit round trip

  /** With unique keys, opening record `k` for edit and saving the untouched
      draft leaves the list as it was (both save variants share the edit
      branch). A record whose key is the empty string is the exception: its
      key is falsy, so the save takes the add branch. */
  lemma EditUntouchedIsIdentity<F>(s: seq<Entry<F>>, k: int, freshId: string)
    requires UniqueIds(s) && 0 <= k < |s| && s[k].id != ""
    ensures SaveAppending(s, Some(s[k].id), s[k].fields, freshId) == s
    ensures SavePrepending(s, Some(s[k].id), s[k].fields, freshId) == s
  {
    var r := ReplaceById(s, s[k].id, s[k].fields);
    forall i | 0 <= i < |s| ensures r[i] == s[i] {
      if s[i].id == s[k].id {
        assert i == k;
      }
    }
  }

  /** The exception itself: a record keyed by `""` that is edited and saved
      is duplicated at the end instead of being updated. */
  lemma EmptyKeyEditAppends<F>(s: seq<Entry<F>>, k: int, freshId: string)
    requires 0 <= k < |s| && s[k].id == ""
    ensures SaveAppending(s, Some(s[k].id), s[k].fields, freshId) == s + [Entry(freshId, s[k].fields)]
  {
  }
}
