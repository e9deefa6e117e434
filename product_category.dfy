/**
 * A product category: a named, slugged node that may have a parent and
 * loaded children.
 */
module ProductCategories {
  import opened Wrappers

  datatype CategoryRow = CategoryRow(
    id: nat,
    name: string,
    description: string,
    slug: string,
    parentId: Option<nat>,
    children: seq<CategoryRow>,
    image: string,
    icon: string,
    sortOrder: int,
    isActive: bool,
    createdAt: int,
    updatedAt: int)
  {
    predicate IsValidName() { |name| > 0 && |name| <= 255 }

    predicate IsValidSlug() { |slug| > 0 && |slug| <= 255 }

    predicate IsRootCategory() { parentId == None }

    predicate IsChildCategory() { parentId != None }

    predicate HasChildren() { |children| > 0 }
  }

  /** Root and child are complementary, and children means a non-empty list. */
  lemma CategoryShape(c: CategoryRow)
    ensures c.IsRootCategory() <==> c.parentId.None?
    ensures c.IsChildCategory() <==> !c.IsRootCategory()
    ensures c.HasChildren() <==> c.children != []
  {
  }

  /** Name and slug checks admit the same lengths, 1 to 255 characters. */
  lemma CategoryNameAndSlug(c: CategoryRow)
    ensures c.IsValidName() <==> 1 <= |c.name| <= 255
    ensures c.IsValidSlug() <==> 1 <= |c.slug| <= 255
  {
  }

  class Category {
    var id: nat
    var name: string
    var description: string
    var slug: string
    var parentId: Option<nat>
    var children: seq<CategoryRow>
    var image: string
    var icon: string
    var sortOrder: int
    var isActive: bool
    var createdAt: int
    var updatedAt: int

    constructor FromRow(r: CategoryRow)
      ensures Row() == r
    {
      id, name, description, slug := r.id, r.name, r.description, r.slug;
      parentId, children, image, icon := r.parentId, r.children, r.image, r.icon;
      sortOrder, isActive, createdAt, updatedAt := r.sortOrder, r.isActive, r.createdAt, r.updatedAt;
    }

    function Row(): CategoryRow
      reads this
    {
      CategoryRow(id, name, description, slug, parentId, children, image, icon,
                  sortOrder, isActive, createdAt, updatedAt)
    }

    method Activate()
      modifies this
      ensures Row() == old(Row()).(isActive := true)
    {
      isActive := true;
    }

    method Deactivate()
      modifies this
      ensures Row() == old(Row()).(isActive := false)
    {
      isActive := false;
    }

    method SetSortOrder(order: int)
      modifies this
      ensures Row() == old(Row()).(sortOrder := order)
    {
      sortOrder := order;
    }
  }
}
