/** The category catalogue: a category record and the six categories seeded
    into a fresh journal. */
module Categories {

  datatype Category = Category(id: int, name: string, icon: string, color: string)

  /** `new Category()`: id 0, empty name, the folder icon and the accent colour. */
  function NewCategory(): (c: Category)
    ensures c.id == 0 && c.name == "" && c.icon == "📁" && c.color == "#ae866c"
  {
    Category(0, "", "📁", "#ae866c")
  }

  /** `Category.GetDefaultCategories()`. */
  const DefaultCategories: seq<Category> := [
    Category(1, "Personal", "👤", "#ae866c"),
    Category(2, "Work", "💼", "#8b7355"),
    Category(3, "Health", "❤️", "#c9a987"),
    Category(4, "Travel", "✈️", "#9d7d60"),
    Category(5, "Goals", "🎯", "#b89778"),
    Category(6, "Gratitude", "🙏", "#a38569")
  ]

  /** Six categories with ids 1..6 in list order, the names of the catalogue, and
      pairwise distinct names and colours. */
  lemma DefaultCategoriesShape()
    ensures |DefaultCategories| == 6
    ensures forall i :: 0 <= i < 6 ==> DefaultCategories[i].id == i + 1
    ensures [DefaultCategories[0].name, DefaultCategories[1].name, DefaultCategories[2].name,
             DefaultCategories[3].name, DefaultCategories[4].name, DefaultCategories[5].name]
         == ["Personal", "Work", "Health", "Travel", "Goals", "Gratitude"]
    ensures forall i, j :: 0 <= i < j < 6 ==> DefaultCategories[i].name != DefaultCategories[j].name
    ensures forall i, j :: 0 <= i < j < 6 ==> DefaultCategories[i].color != DefaultCategories[j].color
  {
  }
}
