/**
  Laws relating several reducer steps: adding then removing an element,
  repeated removal, id uniqueness across edits, and the agreement of the
  bullet edit with the whole-description field edit.
 */
module ReducerLaws {
  import opened Types
  import opened Seqs
  import opened Reducer

  /* ---------- Removal on sequences ---------- */

  /** Removal distributes over concatenation. */
  lemma RemoveByKeyAppend<T(!new)>(a: seq<T>, b: seq<T>, key: T -> string, id: string)
    ensures RemoveByKey(a + b, key, id) == RemoveByKey(a, key, id) + RemoveByKey(b, key, id)
  {
    FilterAppend(a, b, KeyDiffers(key, id));
  }

  /** Removing an element that was just appended with the removed key, from
      a list where that key was fresh, gives back the list. */
  lemma {:induction false} RemoveAppended<T(!new)>(a: seq<T>, x: T, key: T -> string)
    requires FreshKey(a, key, key(x))
    ensures RemoveByKey(a + [x], key, key(x)) == a
  {
    RemoveByKeyAppend(a, [x], key, key(x));
    var tail := RemoveByKey([x], key, key(x));
    assert x !in tail;
    assert tail == [];
  }

  /** A sequence with unique keys keeps unique keys after a removal. */
  lemma RemoveKeepsUniqueKeys<T(!new)>(s: seq<T>, key: T -> string, id: string)
    requires UniqueKeys(s, key)
    ensures UniqueKeys(RemoveByKey(s, key, id), key)
  {
    FilterKeepsUniqueKeys(s, KeyDiffers(key, id), key);
  }

  /* ---------- Id uniqueness per list ---------- */

  /** The ids of the chosen list are pairwise distinct. */
  predicate ListIdsUnique(d: ResumeData, s: ListSection)
  {
    match s
    case WorkSection => UniqueKeys(d.workExperience, WorkId)
    case EducationSection => UniqueKeys(d.education, EducationId)
    case SkillsSection => UniqueKeys(d.skills, SkillId)
    case ProjectsSection => UniqueKeys(d.projects, ProjectId)
  }

  lemma IdsUniqueByList(d: ResumeData)
    ensures IdsUnique(d) <==>
      (ListIdsUnique(d, WorkSection) && ListIdsUnique(d, EducationSection)
       && ListIdsUnique(d, SkillsSection) && ListIdsUnique(d, ProjectsSection))
  {
  }

  /** An id is fresh for a list exactly when no element carries it. */
  lemma FreshIdByList(d: ResumeData, s: ListSection, id: string)
    ensures id !in ListIds(d, s) <==>
      match s
      case WorkSection => FreshKey(d.workExperience, WorkId, id)
      case EducationSection => FreshKey(d.education, EducationId, id)
      case SkillsSection => FreshKey(d.skills, SkillId, id)
      case ProjectsSection => FreshKey(d.projects, ProjectId, id)
  {
    var ids := ListIds(d, s);
    if id in ids {
      var i :| 0 <= i < |ids| && ids[i] == id;
    }
  }

  /** A sequence with `x` appended: `b` is `a + [x]`. */
  lemma AppendedIsSnoc<T>(a: seq<T>, b: seq<T>)
    requires Appended(a, b)
    ensures b == a + [b[|a|]]
  {
  }

  /* ---------- Round trip and uniqueness through the reducer ---------- */

  /** Adding an element and then removing it by its new id restores the
      document exactly, provided the new id was fresh in its list. */
  lemma AddThenRemoveRestores(d: ResumeData, s: ListSection, stamp: string)
    requires NewItemId(s, stamp) !in ListIds(d, s)
    ensures Reduce(Reduce(d, AddItem(s, stamp)), RemoveItem(s, NewItemId(s, stamp))) == d
  {
    var id := NewItemId(s, stamp);
    var d1 := Reduce(d, AddItem(s, stamp));
    var d2 := Reduce(d1, RemoveItem(s, id));
    FreshIdByList(d, s, id);
    match s {
      case WorkSection =>
        AppendedIsSnoc(d.workExperience, d1.workExperience);
        RemoveAppended(d.workExperience, d1.workExperience[|d.workExperience|], WorkId);
      case EducationSection =>
        AppendedIsSnoc(d.education, d1.education);
        RemoveAppended(d.education, d1.education[|d.education|], EducationId);
      case SkillsSection =>
        AppendedIsSnoc(d.skills, d1.skills);
        RemoveAppended(d.skills, d1.skills[|d.skills|], SkillId);
      case ProjectsSection =>
        AppendedIsSnoc(d.projects, d1.projects);
        RemoveAppended(d.projects, d1.projects[|d.projects|], ProjectId);
    }
    assert SectionAgrees(d, d2, s);
    forall t: Section ensures SectionAgrees(d, d2, t) {
      if t != s {
        assert SectionAgrees(d, d1, t) && SectionAgrees(d1, d2, t);
      }
    }
    SameEverywhere(d, d2);
  }

  /** Appending an element with a fresh key keeps the keys unique. */
  lemma AppendFreshKeepsUniqueKeys<T>(a: seq<T>, x: T, key: T -> string)
    requires UniqueKeys(a, key)
    requires FreshKey(a, key, key(x))
    ensures UniqueKeys(a + [x], key)
  {
    var b := a + [x];
    forall i, j | 0 <= i < j < |b| ensures key(b[i]) != key(b[j]) {
      if j == |a| {
        assert b[i] == a[i];
      } else {
        assert b[i] == a[i] && b[j] == a[j];
      }
    }
  }

  /** With a fresh id, adding an element keeps every list's ids unique. */
  lemma AddKeepsIdsUnique(d: ResumeData, s: ListSection, stamp: string)
    requires IdsUnique(d)
    requires NewItemId(s, stamp) !in ListIds(d, s)
    ensures IdsUnique(Reduce(d, AddItem(s, stamp)))
  {
    var id := NewItemId(s, stamp);
    var d1 := Reduce(d, AddItem(s, stamp));
    FreshIdByList(d, s, id);
    assert SameOutside(d, d1, {s});
    match s {
      case WorkSection =>
        AppendedIsSnoc(d.workExperience, d1.workExperience);
        AppendFreshKeepsUniqueKeys(d.workExperience, d1.workExperience[|d.workExperience|], WorkId);
        assert SectionAgrees(d, d1, EducationSection) && SectionAgrees(d, d1, SkillsSection) && SectionAgrees(d, d1, ProjectsSection);
      case EducationSection =>
        AppendedIsSnoc(d.education, d1.education);
        AppendFreshKeepsUniqueKeys(d.education, d1.education[|d.education|], EducationId);
        assert SectionAgrees(d, d1, WorkSection) && SectionAgrees(d, d1, SkillsSection) && SectionAgrees(d, d1, ProjectsSection);
      case SkillsSection =>
        AppendedIsSnoc(d.skills, d1.skills);
        AppendFreshKeepsUniqueKeys(d.skills, d1.skills[|d.skills|], SkillId);
        assert SectionAgrees(d, d1, WorkSection) && SectionAgrees(d, d1, EducationSection) && SectionAgrees(d, d1, ProjectsSection);
      case ProjectsSection =>
        AppendedIsSnoc(d.projects, d1.projects);
        AppendFreshKeepsUniqueKeys(d.projects, d1.projects[|d.projects|], ProjectId);
        assert SectionAgrees(d, d1, WorkSection) && SectionAgrees(d, d1, EducationSection) && SectionAgrees(d, d1, SkillsSection);
    }
  }

  /** Removal keeps every list's ids unique. */
  lemma RemoveKeepsIdsUnique(d: ResumeData, s: ListSection, id: string)
    requires IdsUnique(d)
    ensures IdsUnique(Reduce(d, RemoveItem(s, id)))
  {
    var d1 := Reduce(d, RemoveItem(s, id));
    assert SameOutside(d, d1, {s});
    match s {
      case WorkSection =>
        RemoveKeepsUniqueKeys(d.workExperience, WorkId, id);
        assert SectionAgrees(d, d1, EducationSection) && SectionAgrees(d, d1, SkillsSection) && SectionAgrees(d, d1, ProjectsSection);
      case EducationSection =>
        RemoveKeepsUniqueKeys(d.education, EducationId, id);
        assert SectionAgrees(d, d1, WorkSection) && SectionAgrees(d, d1, SkillsSection) && SectionAgrees(d, d1, ProjectsSection);
      case SkillsSection =>
        RemoveKeepsUniqueKeys(d.skills, SkillId, id);
        assert SectionAgrees(d, d1, WorkSection) && SectionAgrees(d, d1, EducationSection) && SectionAgrees(d, d1, ProjectsSection);
      case ProjectsSection =>
        RemoveKeepsUniqueKeys(d.projects, ProjectId, id);
        assert SectionAgrees(d, d1, WorkSection) && SectionAgrees(d, d1, EducationSection) && SectionAgrees(d, d1, SkillsSection);
    }
  }

  /* ---------- Removal laws ---------- */

  /** Removing an id that no element carries leaves the document unchanged. */
  lemma RemoveMissingIsNoOp(d: ResumeData, s: ListSection, id: string)
    requires id !in ListIds(d, s)
    ensures Reduce(d, RemoveItem(s, id)) == d
  {
    var d1 := Reduce(d, RemoveItem(s, id));
    FreshIdByList(d, s, id);
    assert SectionAgrees(d, d1, s);
    assert SameOutside(d, d1, {});
    SameEverywhere(d, d1);
  }

  /** Removing the same id twice is removing it once. */
  lemma RemoveIdempotent(d: ResumeData, s: ListSection, id: string)
    ensures Reduce(Reduce(d, RemoveItem(s, id)), RemoveItem(s, id)) == Reduce(d, RemoveItem(s, id))
  {
    var d1 := Reduce(d, RemoveItem(s, id));
    match s {
      case WorkSection => assert FreshKey(d1.workExperience, WorkId, id);
      case EducationSection => assert FreshKey(d1.education, EducationId, id);
      case SkillsSection => assert FreshKey(d1.skills, SkillId, id);
      case ProjectsSection => assert FreshKey(d1.projects, ProjectId, id);
    }
    FreshIdByList(d1, s, id);
    RemoveMissingIsNoOp(d1, s, id);
  }

  /* ---------- Edits never touch ids ---------- */

  /** Field, contact and bullet edits leave every list's ids as they were,
      so ids assigned at creation are never reassigned. */
  lemma EditsKeepIds(d: ResumeData, a: Action, s: ListSection)
    requires Allowed(d, a)
    requires a.UpdateItemField? || a.UpdateContactField? || a.UpdateBullet?
    ensures ListIds(Reduce(d, a), s) == ListIds(d, s)
  {
    var r := Reduce(d, a);
    if a.UpdateItemField? && ItemSection(a.field) == s {
      match a.field {
        case WorkItem(_) =>
          assert forall j :: 0 <= j < |d.workExperience| ==> r.workExperience[j].id == d.workExperience[j].id;
        case EducationItem(_) =>
          assert forall j :: 0 <= j < |d.education| ==> r.education[j].id == d.education[j].id;
        case SkillItem(_) =>
          assert forall j :: 0 <= j < |d.skills| ==> r.skills[j].id == d.skills[j].id;
        case ProjectItem(_) =>
          assert forall j :: 0 <= j < |d.projects| ==> r.projects[j].id == d.projects[j].id;
      }
    } else if a.UpdateBullet? && s == WorkSection {
      assert forall j :: 0 <= j < |d.workExperience| ==> r.workExperience[j].id == d.workExperience[j].id;
    } else {
      assert s !in Touched(a);
      assert SectionAgrees(d, r, s);
    }
  }

  /* ---------- The bullet edit is a description edit ---------- */

  /** Editing one bullet is the same as setting the job's whole description
      to the list with that bullet replaced. */
  lemma UpdateBulletIsDescriptionEdit(d: ResumeData, wi: nat, bi: nat, text: string)
    requires wi < |d.workExperience| && bi < |d.workExperience[wi].description|
    ensures var lines := d.workExperience[wi].description[bi := text];
      Reduce(d, UpdateBullet(wi, bi, text))
      == Reduce(d, UpdateItemField(wi, WorkItem(Description), ListValue(lines)))
  {
    var lines := d.workExperience[wi].description[bi := text];
    var r1 := Reduce(d, UpdateBullet(wi, bi, text));
    var r2 := Reduce(d, UpdateItemField(wi, WorkItem(Description), ListValue(lines)));
    var j1, j2 := r1.workExperience[wi], r2.workExperience[wi];
    assert j1.description == lines;
    forall g ensures GetWork(j1, g) == GetWork(j2, g) {
      if g != Description {
        assert GetWork(j1, g) == GetWork(d.workExperience[wi], g) == GetWork(j2, g);
      }
    }
    WorkExtensional(j1, j2);
    assert r1.workExperience == r2.workExperience;
    assert SectionAgrees(r1, r2, WorkSection);
    forall t: Section ensures SectionAgrees(r1, r2, t) {
      if t != WorkSection {
        assert SectionAgrees(d, r1, t) && SectionAgrees(d, r2, t);
      }
    }
    SameEverywhere(r1, r2);
  }
}
