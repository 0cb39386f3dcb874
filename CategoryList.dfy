/** The category list page (src/pages/core/categories/List.tsx): the search
    filter over the fetched categories, the result-count line, and the
    handlers that open, submit and close the category form. */
module CategoryList {
  import opened Basics
  import CategoryForm

  type Category = CategoryForm.Category

  // ---------------------------------------------------------------------
  // Search

  /** A non-empty query matches when the lowercased name, display name or
      description contains the lowercased query. */
  predicate Matches(query: string, c: Category) {
    query == ""
    || Contains(Lower(c.name), Lower(query))
    || Contains(Lower(c.displayName), Lower(query))
    || Contains(Lower(c.description), Lower(query))
  }

  /** `filteredCategories` over `data?.data || []`. */
  function FilteredCategories(data: Option<seq<Category>>, query: string): (r: seq<Category>)
    ensures data.None? ==> r == []
    ensures data.Some? ==> |r| <= |data.value| && forall c | c in r :: c in data.value && Matches(query, c)
  {
    Filter(data.GetOr([]), c => Matches(query, c))
  }

  /** A category is listed iff it matches, in the order fetched; an empty
      query lists them all. */
  lemma FilteredExactly(categories: seq<Category>, query: string)
    ensures forall c :: c in FilteredCategories(Some(categories), query) <==> c in categories && Matches(query, c)
    ensures IsSubsequence(FilteredCategories(Some(categories), query), categories)
    ensures query == "" ==> FilteredCategories(Some(categories), query) == categories
  {
    var keep := c => Matches(query, c);
    FilterIsSubsequence(categories, keep);
    forall c ensures c in Filter(categories, keep) <==> c in categories && keep(c) {
      FilterMembership(categories, keep, c);
    }
    if query == "" {
      FilterKeepsAll(categories, keep);
    }
  }

  // ---------------------------------------------------------------------
  // The result-count line

  function PluralSuffix(count: nat): (s: string)
    ensures s == "s" <==> count != 1
    ensures s == "" <==> count == 1
  {
    if count != 1 then "s" else ""
  }

  /** The line under the search bar: nothing without a query, a "no
      results" message for zero matches, otherwise the count followed by
      "resultado" and "encontrado", both in the plural unless the count
      is 1. */
  function ResultLine(query: string, count: nat): (r: Option<string>)
    ensures r.None? <==> query == ""
    ensures query != "" && count == 0 ==> r == Some("No se encontraron resultados para \"" + query + "\"")
    ensures query != "" && count > 0 ==>
      r == Some(NatToString(count) + " resultado" + PluralSuffix(count) + " encontrado" + PluralSuffix(count))
  {
    if query == "" then None
    else if count == 0 then Some("No se encontraron resultados para \"" + query + "\"")
    else Some(NatToString(count) + " resultado" + PluralSuffix(count) + " encontrado" + PluralSuffix(count))
  }

  lemma ResultLineSingular()
    ensures ResultLine("a", 1) == Some("1 resultado encontrado")
  {
    assert NatToString(1) == "1";
    assert PluralSuffix(1) == "";
    assert "1" + " resultado" + "" + " encontrado" + "" == "1 resultado encontrado";
  }

  lemma ResultLinePlural()
    ensures ResultLine("a", 3) == Some("3 resultados encontrados")
  {
    assert NatToString(3) == "3";
    assert PluralSuffix(3) == "s";
    assert "3" + " resultado" + "s" + " encontrado" + "s" == "3 resultados encontrados";
  }

  // ---------------------------------------------------------------------
  // The form handlers

  /** A mutation started from the form. */
  datatype Mutation =
    | Create(formData: seq<(string, CategoryForm.Part)>)
    | Update(id: string, formData: seq<(string, CategoryForm.Part)>)

  class CategoriesPage {
    var formModalOpen: bool
    var itemToEdit: Option<Category>
    /** `createMutation.isPending` and `updateMutation.isPending`. */
    var createPending: bool
    var updatePending: bool
    /** The mutations started, in order. */
    var mutations: seq<Mutation>

    constructor ()
      ensures !formModalOpen && itemToEdit == None && !createPending && !updatePending && mutations == []
    {
      formModalOpen := false;
      itemToEdit := None;
      createPending := false;
      updatePending := false;
      mutations := [];
    }

    /** `handleEdit`: open the form on an existing category. */
    method HandleEdit(item: Category)
      modifies this`itemToEdit, this`formModalOpen
      ensures itemToEdit == Some(item) && formModalOpen
    {
      itemToEdit := Some(item);
      formModalOpen := true;
    }

    /** `handleCreateNew`: open an empty form. */
    method HandleCreateNew()
      modifies this`itemToEdit, this`formModalOpen
      ensures itemToEdit == None && formModalOpen
    {
      itemToEdit := None;
      formModalOpen := true;
    }

    /** `handleCloseFormModal`: ignored while a mutation is pending. */
    method HandleCloseFormModal()
      modifies this`itemToEdit, this`formModalOpen
      ensures createPending || updatePending ==> formModalOpen == old(formModalOpen) && itemToEdit == old(itemToEdit)
      ensures !createPending && !updatePending ==> !formModalOpen && itemToEdit == None
    {
      if !createPending && !updatePending {
        formModalOpen := false;
        itemToEdit := None;
      }
    }

    /** `handleFormSubmit`: update the edited category by its id, otherwise
        create one. */
    method HandleFormSubmit(formData: seq<(string, CategoryForm.Part)>)
      modifies this`mutations, this`createPending, this`updatePending
      ensures itemToEdit.Some? ==>
        mutations == old(mutations) + [Update(itemToEdit.value.id, formData)] && updatePending && createPending == old(createPending)
      ensures itemToEdit.None? ==>
        mutations == old(mutations) + [Create(formData)] && createPending && updatePending == old(updatePending)
    {
      if itemToEdit.Some? {
        mutations := mutations + [Update(itemToEdit.value.id, formData)];
        updatePending := true;
      } else {
        mutations := mutations + [Create(formData)];
        createPending := true;
      }
    }

    /** A create or update settles; on success the form closes. */
    method MutationSettled(update: bool, success: bool)
      modifies this
      ensures update ==> !updatePending && createPending == old(createPending)
      ensures !update ==> !createPending && updatePending == old(updatePending)
      ensures success ==> !formModalOpen && itemToEdit == None
      ensures !success ==> formModalOpen == old(formModalOpen) && itemToEdit == old(itemToEdit)
      ensures mutations == old(mutations)
    {
      if update {
        updatePending := false;
      } else {
        createPending := false;
      }
      if success {
        formModalOpen := false;
        itemToEdit := None;
      }
    }
  }

  /** Editing a category, submitting and trying to close before the update
      settles: the update carries the category's id and the form stays
      open on it. */
  method EditSubmitClose(item: Category, formData: seq<(string, CategoryForm.Part)>)
    returns (open: bool, editing: Option<Category>, mutations: seq<Mutation>)
    ensures open && editing == Some(item)
    ensures mutations == [Update(item.id, formData)]
  {
    var page := new CategoriesPage();
    page.HandleEdit(item);
    page.HandleFormSubmit(formData);
    page.HandleCloseFormModal();
    open, editing, mutations := page.formModalOpen, page.itemToEdit, page.mutations;
  }
}
