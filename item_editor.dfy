// The item component of Day_12/src/app/item/item.ts: it holds a reference
// to one to-do item of the list and edits that object's description in place.
module ItemEditor {
  import opened Todo

  /** ItemComponent: the `editable` signal and the `item` input. */
  class ItemComponent {
    var editable: bool
    var item: Item

    constructor (item: Item)
      ensures this.item == item && !editable
    {
      this.item := item;
      editable := false;
    }

    /**
     * `saveItem`: empty text changes nothing; otherwise leave edit mode and
     * write the text into the shared item object itself.
     */
    method SaveItem(description: string)
      modifies this, item
      ensures item == old(item)
      ensures item.done == old(item.done)
      ensures description == "" ==> editable == old(editable) && item.description == old(item.description)
      ensures description != "" ==> !editable && item.description == description
    {
      if description == "" {
        return;
      }
      editable := false;
      item.description := description;
    }
  }

  /**
   * The list and an item component share the item object: a save through
   * the component is seen by the list, which keeps the same entries.
   */
  method SaveThroughComponent(list: TodoComponent, editor: ItemComponent, k: nat, description: string)
    requires k < |list.allItems| && list.allItems[k] == editor.item
    requires description != ""
    modifies editor, editor.item
    ensures list.allItems == old(list.allItems) && list.filter == old(list.filter)
    ensures list.allItems[k].description == description
    ensures list.allItems[k].done == old(list.allItems[k].done)
  {
    editor.SaveItem(description);
  }
}
