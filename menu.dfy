/** The menu as the order service reads it. */
module MenuDomain {

  /** A menu: its id, its name and its current price. */
  datatype Menu = Menu(id: int, name: string, price: int)

  /** A menu store keyed by id holds every menu under its own id. */
  ghost predicate MenusKeyed(menus: map<int, Menu>)
  {
    forall k | k in menus :: menus[k].id == k
  }
}
