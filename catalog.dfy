/** The engine's static tables. */
module Catalog {

  /** Interest -> products offered to customers with that interest. */
  const InterestMap: map<string, seq<string>> := map[
    "Tech" := ["Wireless Keyboard", "External SSD"],
    "Gaming" := ["Gaming Mouse", "Mechanical Keyboard"],
    "Fashion" := ["Designer Watch", "Silk Scarf"],
    "Winter Wear" := ["Winter Boots", "Wool Gloves"],
    "Mobile" := ["Phone Stand", "Screen Protector"],
    "Accessories" := ["Smart Watch", "Wireless Earbuds"],
    "Photography" := ["Camera Bag", "Lens Cleaner"],
    "Gadgets" := ["Smart Speaker", "Fitness Tracker"],
    "Luxury" := ["Premium Credit Card", "Investment Portfolio"],
    "Travel" := ["Travel Insurance", "Currency Exchange Card"]
  ]

  /** Interest category -> products whose purchase puts a customer in that category. */
  const PurchaseCategoryTable: map<string, seq<string>> := map[
    "Tech" := ["Laptop", "Mouse", "Wireless Keyboard", "External SSD"],
    "Gaming" := ["Gaming Mouse", "Mechanical Keyboard"],
    "Fashion" := ["Shoes", "Jacket", "Designer Watch", "Silk Scarf"],
    "Winter Wear" := ["Winter Boots", "Wool Gloves"],
    "Mobile" := ["Phone", "Phone Stand", "Screen Protector"],
    "Accessories" := ["Earbuds", "Smart Watch", "Wireless Earbuds"],
    "Photography" := ["Camera", "Tripod", "Camera Bag", "Lens Cleaner"],
    "Gadgets" := ["Smart Speaker", "Fitness Tracker"],
    "Luxury" := ["Watch", "Sunglasses", "Premium Credit Card", "Investment Portfolio"],
    "Travel" := ["Travel Insurance", "Currency Exchange Card"]
  ]

  /** The products that have a product-specific reason phrase. */
  const ProductsWithPhrase: set<string> := {
    "Gaming Mouse", "Mechanical Keyboard", "Wireless Keyboard", "External SSD",
    "Phone", "Phone Stand", "Screen Protector", "Earbuds", "Smart Watch",
    "Wireless Earbuds", "Camera", "Camera Bag", "Lens Cleaner", "Smart Speaker",
    "Fitness Tracker", "Designer Watch", "Silk Scarf", "Winter Boots", "Wool Gloves",
    "Premium Credit Card", "Investment Portfolio", "Travel Insurance",
    "Currency Exchange Card"
  }
}
